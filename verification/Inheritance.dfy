/** Priority inheritance: what a task is lent, and when it has to give it back. */
module Inheritance {
  import opened Types
  import opened Sequences
  import opened Kernel
  import opened Steps
  import opened Placement
  import opened Calmness
  import opened MutexKernel
  import Q = TaskQueues
  import Tm = TaskTimers
  import Ow = OwnedFutexes

  /** `u` waits for one of `fs`. */
  predicate WaitsForOne(k: Kernel, fs: seq<FutexId>, u: TaskId) {
    && k.Look(u).Some? && k.Look(u).value.link.Some? && k.Look(u).value.link.value.WaitersOf?
    && k.Look(u).value.link.value.futex in fs
  }

  /** Nobody who waits for one of `fs` is more urgent than `p`. */
  ghost predicate AtLeastAsUrgent(k: Kernel, fs: seq<FutexId>, p: nat) {
    forall u :: WaitsForOne(k, fs, u) ==> p <= k.Look(u).value.prio
  }

  /** `p` is the most urgent of `base` and the priorities of all who wait for one of `fs`. */
  ghost predicate Inherited(k: Kernel, fs: seq<FutexId>, base: nat, p: nat) {
    && p <= base
    && AtLeastAsUrgent(k, fs, p)
    && (p == base || exists u :: WaitsForOne(k, fs, u) && p == k.Look(u).value.prio)
  }

  lemma HeadIsUrgent(k: Kernel, f: FutexId)
    requires Sane(k)
    ensures Q.Linked(k.queues)
    ensures k.Waiters(f) != [] ==>
              WaitsForOne(k, [f], k.Waiters(f)[0]) &&
              Q.HighestPriority(k.queues, Q.WaitersOf(f)) == k.Look(k.Waiters(f)[0]).value.prio
    ensures forall u :: WaitsForOne(k, [f], u) ==> Q.HighestPriority(k.queues, Q.WaitersOf(f)) <= k.Look(u).value.prio
    ensures k.Waiters(f) == [] ==> Q.HighestPriority(k.queues, Q.WaitersOf(f)) == Q.NUM_PRIORITIES
  {
    Parts(k);
    hide Sane, Q.Good;
    if k.Waiters(f) != [] {
      OnQueue(k, Q.WaitersOf(f), k.Waiters(f)[0]);
      Seen(k, k.Waiters(f)[0]);
    }
    forall u | WaitsForOne(k, [f], u)
      ensures Q.HighestPriority(k.queues, Q.WaitersOf(f)) <= k.Look(u).value.prio
    {
      OnQueue(k, Q.WaitersOf(f), u);
      HighestIsLowest(k.queues, Q.WaitersOf(f), u);
    }
  }

  /** The loop over the owned futexes finds that minimum; base priorities are below 64. */
  lemma {:induction false} MostUrgentInherits(k: Kernel, fs: seq<FutexId>, best: nat)
    requires Sane(k) && Q.Linked(k.queues)
    ensures MostUrgent(k.queues, fs, best) <= best && AtLeastAsUrgent(k, fs, MostUrgent(k.queues, fs, best))
    ensures best <= Q.NUM_PRIORITIES ==> Inherited(k, fs, best, MostUrgent(k.queues, fs, best))
  {
    hide Kernel.Look, Sane, Q.Linked, Q.HighestPriority;
    if fs != [] {
      HeadIsUrgent(k, fs[0]);
      var highest := Q.HighestPriority(k.queues, Q.WaitersOf(fs[0]));
      var best' := if highest < best then highest else best;
      MostUrgentInherits(k, fs[1..], best');
      forall u ensures WaitsForOne(k, fs, u) <==> WaitsForOne(k, [fs[0]], u) || WaitsForOne(k, fs[1..], u) {
        assert forall g :: g in fs <==> g == fs[0] || g in fs[1..];
      }
    }
  }

  predicate IsPi(k: Kernel, f: FutexId) {
    f in k.futexes && k.futexes[f].kind == Mutex(true)
  }

  /**
   No permanent boost: once the owner has woken a mutex with priority inheritance, its priority is the most
   urgent of its base and of those who wait for the mutexes still on its list.
   */
  lemma OwnerGivesBack(k: Kernel, c: CoreId, f: FutexId, all: bool)
    requires MutexesOk(k) && c in k.current && IsPi(k, f) && Names(k, f, k.current[c])
    ensures Calls(k, c) && OwnerLive(k, k.futexes[f].value)
    ensures var r := Wake(k, c, f, all).0; var cur := k.current[c];
            && f !in r.owned.List(cur)
            && r.Look(cur).Some?
            && AtLeastAsUrgent(r, r.owned.List(cur), r.Look(cur).value.prio)
            && (k.tasks[cur].base <= Q.NUM_PRIORITIES ==>
                  Inherited(r, r.owned.List(cur), k.tasks[cur].base, r.Look(cur).value.prio))
  {
    hide Kernel.Look, Sane, MutexesOk, Placed, Wake, Names, Ow.Unlink, MostUrgent, Q.Linked, Ow.Good, Q.Good, Tm.Good;
    OwnerWakes(k, c, f, all);
    var cur := k.current[c];
    var r := Wake(k, c, f, all).0;
    var fs := Ow.Unlink(k.owned, f).List(cur);
    Word(k, f);
    CallerReady(k, c);
    Parts(k);
    OwnerPriority(k, c, f, all);
    UnlinkedList(k.owned, f, cur);
    MostUrgentInherits(k, fs, k.tasks[cur].base);
    forall u ensures WaitsForOne(k, fs, u) <==> WaitsForOne(r, fs, u)
      ensures WaitsForOne(k, fs, u) ==> r.Look(u).value.prio == k.Look(u).value.prio
    {
      assert Handed(k, r, f, u);
      NamesOne(k, f, cur, u);
    }
  }

  lemma UnlinkedList(o: Ow.Owned, f: FutexId, t: TaskId)
    requires Ow.Good(o)
    ensures f !in Ow.Unlink(o, f).List(t)
  {
    Ow.UnlinkGood(o, f);
  }

  lemma OwnerPriority(k: Kernel, c: CoreId, f: FutexId, all: bool)
    requires MutexesOk(k) && Calls(k, c) && IsPi(k, f) && Names(k, f, k.current[c]) && OwnerLive(k, k.futexes[f].value)
    ensures var r := Wake(k, c, f, all).0; var cur := k.current[c]; var fs := Ow.Unlink(k.owned, f).List(cur);
            && Q.Linked(k.queues) && r.Look(cur).Some?
            && r.owned.List(cur) == fs
            && r.Look(cur).value.prio == MostUrgent(k.queues, fs, k.tasks[cur].base)
  {
    hide Kernel.Look, Sane, MutexesOk, Placed, Deboost, WakeWaiters, MostUrgent, Ow.Unlink, Q.Linked, Ow.Good, Q.Good, Tm.Good;
    var cur := k.current[c];
    Parts(k);
    LoweredMid(k, f);
    LoweredQueues(k, f);
    DeboostStep(k, f, cur);
    Seen(k, cur);
    var k1 := Lowered(k, f);
    hide Lowered;
    if k.Waiters(f) == [] {
      WakeNobodyStep(k1, f, all);
    } else {
      WakeMutexStep(k1, f, all);
      WaiterBlocked(k1, Q.WaitersOf(f), k.Waiters(f)[0]);
    }
    PendingStep(WakeWaiters(k1, f, all), c);
  }

  // ----- the inheritance bound

  /** `u` names no mutex with priority inheritance as its own. */
  ghost predicate OwnsNoPi(k: Kernel, u: TaskId) {
    forall g :: IsPi(k, g) ==> !Names(k, g, u)
  }

  /** A live owner of `f` is at least as urgent as its waiter `u`, who owns nothing that lends priority. */
  ghost predicate Bounded(k: Kernel, f: FutexId, u: TaskId) {
    IsPi(k, f) && WaitsFor(k, f, u) ==>
      && (OwnerLive(k, k.futexes[f].value) ==>
            k.Look(OwnerOf(k.futexes[f].value)).Some? && k.Look(OwnerOf(k.futexes[f].value)).value.prio <= k.Look(u).value.prio)
      && OwnsNoPi(k, u)
  }

  ghost predicate BoundOk(k: Kernel) {
    forall f, u :: Bounded(k, f, u)
  }

  /** While somebody waits for a mutex that lends priority, its place is on the list of the task that it names. */
  lemma WaitedIsLinked(k: Kernel, f: FutexId, u: TaskId)
    requires MutexesOk(k) && IsPi(k, f) && WaitsFor(k, f, u)
    ensures OwnerOf(k.futexes[f].value) > 0 && k.owned.List(OwnerOf(k.futexes[f].value)) != []
  {
    hide Kernel.Look, Sane, Placed, Ow.ListLinked, OwnerOf;
    Word(k, f);
    Parts(k);
    OnQueue(k, Q.WaitersOf(f), u);
    OwnerTwice(k.futexes[f].value);
  }

  /** Kept by every step that leaves the mutexes and all priorities alone, and brings no dead owner back. */
  lemma CalmBound(k: Kernel, k': Kernel, x: set<TaskId>)
    requires Calm(k, k', x) && MutexesOk(k) && BoundOk(k)
    requires forall t :: k.Look(t).None? && k'.Look(t).Some? ==> k.owned.List(t) == []
    ensures BoundOk(k')
  {
    hide Kernel.Look, MutexesOk, OwnerOf;
    forall f, u ensures Bounded(k', f, u) {
      assert Bounded(k, f, u) && CalmFace(k, k.Look(u), k'.Look(u), u in x, false);
      if IsPi(k', f) && WaitsFor(k', f, u) {
        WaitedIsLinked(k, f, u);
        var t: TaskId := OwnerOf(k.futexes[f].value);
        assert CalmFace(k, k.Look(t), k'.Look(t), t in x, false);
        Seen(k, t);
        Seen(k', t);
        forall g | IsPi(k', g) ensures !Names(k', g, u) {
          assert IsPi(k, g) && !Names(k, g, u);
        }
      }
    }
  }

  lemma BlockedBelow(k: Kernel, c: CoreId, f: FutexId, delay: nat, u: TaskId)
    requires Calls(k, c) && f in k.futexes
    requires var w := BlockLook(k, c, f, delay, u); w.Some? && w.value.link == Some(Q.WaitersOf(f))
    ensures Lent(k, c, f, delay) <= BlockLook(k, c, f, delay, u).value.prio
  {
    hide Kernel.Look, Sane, Block, Q.HighestPriority, Q.Good, Q.Linked;
    var b := Block(k, c, f, delay);
    BlockStep(k, c, f, delay);
    OnQueue(b, Q.WaitersOf(f), u);
    Parts(b);
    Seen(b, u);
    HighestIsLowest(b.queues, Q.WaitersOf(f), u);
  }

  lemma WaitBounded(k: Kernel, r: Kernel, c: CoreId, f: FutexId, expected: int, delay: nat, g: FutexId, u: TaskId)
    requires BoundOk(k) && Calls(k, c) && IsMutex(k, f) && ShouldBlock(k.futexes[f], expected)
    requires MayWait(k, f) && (IsPi(k, f) ==> OwnsNoPi(k, k.current[c]))
    requires k.Look(k.current[c]).Some? && k.Look(k.current[c]).value.link.None?
    requires r.futexes == k.futexes[f := k.futexes[f].(value := WaitValue(k.futexes[f].kind, expected))]
    requires forall t :: r.Look(t) == WaitLook(k, c, f, delay, t)
    ensures Bounded(r, g, u)
  {
    hide Kernel.Look, Sane, Lent, WaitValue, OwnerOf, ShouldBlock;
    SameOwner(k.futexes[f], expected);
    if IsPi(r, g) && WaitsFor(r, g, u) {
      assert Bounded(k, g, u);
      assert OwnsNoPi(k, u);
      assert OwnerOf(r.futexes[g].value) == OwnerOf(k.futexes[g].value);
      if OwnerLive(r, r.futexes[g].value) {
        var owner: TaskId := OwnerOf(k.futexes[g].value);
        Seen(k, owner);
        Seen(r, owner);
        if g == f {
          BlockedBelow(k, c, f, delay, u);
        }
      }
      assert OwnsNoPi(r, u) by {
        forall h | IsPi(r, h) ensures !Names(r, h, u) {
          assert IsPi(k, h) && !Names(k, h, u);
        }
      }
      assert !Names(k, f, u) || !IsPi(k, f);
    }
  }

  /** Kept by a wait on a mutex, unless a task blocks on one that lends while it owns another one that lends. */
  lemma WaitBound(k: Kernel, c: CoreId, f: FutexId, expected: int, delay: nat)
    requires MutexesOk(k) && BoundOk(k) && c in k.current && IsMutex(k, f)
    requires ShouldBlock(k.futexes[f], expected) && MayWait(k, f)
    requires IsPi(k, f) ==> OwnsNoPi(k, k.current[c])
    ensures Calls(k, c) && BoundOk(Wait(k, c, f, expected, delay))
  {
    hide Kernel.Look, Sane, Placed, MutexesOk, Wait, Lent, BlockLook, OwnerOf, SetContended;
    Word(k, f);
    CallerReady(k, c);
    var r := Wait(k, c, f, expected, delay);
    WaitStep(k, c, f, expected, delay);
    forall g, u ensures Bounded(r, g, u) {
      WaitBounded(k, r, c, f, expected, delay, g, u);
    }
  }

  lemma SecondIsUrgent(k: Kernel, f: FutexId, u: TaskId)
    requires Sane(k) && u in k.Waiters(f) && u != k.Waiters(f)[0]
    ensures |k.Waiters(f)| > 1 && k.Prio(k.Waiters(f)[1]) <= k.Prio(u)
  {
    hide Tm.Good, Ow.Good;
    var w := k.Waiters(f);
    var i :| 0 <= i < |w| && w[i] == u;
    assert Q.ListSorted(k.queues.entry, w);
    if i > 1 { assert Q.Before(k.queues.entry, w[1], w[i]); }
  }

  /** The heir of a mutex is at least as urgent as everybody who still waits for it. */
  lemma HeirUrgent(k: Kernel, c: CoreId, f: FutexId, all: bool, u: TaskId)
    requires MutexesOk(k) && Calls(k, c) && IsPi(k, f) && Names(k, f, k.current[c]) && OwnerLive(k, k.futexes[f].value)
    requires k.Waiters(f) != []
    requires WaitsFor(Wake(k, c, f, all).0, f, u)
    ensures var r := Wake(k, c, f, all).0; var t := k.Waiters(f)[0];
            r.Look(t).Some? && r.Look(t).value.prio <= r.Look(u).value.prio
  {
    hide Kernel.Look, Sane, MutexesOk, Placed, Lowered, WakeWaiters;
    LoweredMid(k, f);
    LoweredQueues(k, f);
    var k1 := Lowered(k, f);
    WakeMutexStep(k1, f, all);
    PendingStep(WakeWaiters(k1, f, all), c);
    OnQueue(k1, Q.WaitersOf(f), u);
    Seen(k1, u);
    WaiterBlocked(k1, Q.WaitersOf(f), k.Waiters(f)[0]);
    SecondIsUrgent(k1, f, u);
  }

  /** Somebody who still waits owns no more than before. */
  lemma StillOwnsNoPi(k: Kernel, c: CoreId, f: FutexId, all: bool, u: TaskId)
    requires MutexesOk(k) && c in k.current && Names(k, f, k.current[c]) && OwnsNoPi(k, u)
    ensures Calls(k, c) && OwnerLive(k, k.futexes[f].value)
    ensures k.Waiters(f) == [] || u != k.Waiters(f)[0] ==> OwnsNoPi(Wake(k, c, f, all).0, u)
  {
    hide Kernel.Look, Sane, MutexesOk, Placed, Wake, OwnerOf, Handed;
    OwnerWakes(k, c, f, all);
    var r := Wake(k, c, f, all).0;
    if k.Waiters(f) == [] || u != k.Waiters(f)[0] {
      forall h | IsPi(r, h) ensures !Names(r, h, u) {
        assert IsPi(k, h) && !Names(k, h, u);
      }
    }
  }

  /** The owner of another contended mutex stays at least as urgent as its waiters. */
  lemma OtherOwnerUrgent(k: Kernel, c: CoreId, f: FutexId, all: bool, g: FutexId, u: TaskId)
    requires MutexesOk(k) && BoundOk(k) && c in k.current && Names(k, f, k.current[c])
    requires g != f && IsPi(k, g) && WaitsFor(k, g, u) && OwnerLive(k, k.futexes[g].value)
    ensures Calls(k, c) && OwnerLive(k, k.futexes[f].value)
    ensures var r := Wake(k, c, f, all).0; var owner := OwnerOf(k.futexes[g].value);
            WaitsFor(r, g, u) ==> r.Look(owner).Some? && r.Look(owner).value.prio <= r.Look(u).value.prio
  {
    hide Kernel.Look, Sane, MutexesOk, Placed, Wake, OwnerOf, Ow.Good, Ow.ListLinked;
    OwnerWakes(k, c, f, all);
    Word(k, f);
    Word(k, g);
    CallerReady(k, c);
    var r := Wake(k, c, f, all).0;
    var owner := OwnerOf(k.futexes[g].value);
    assert Bounded(k, g, u) && Handed(k, r, f, u) && Handed(k, r, f, owner);
    OnQueue(k, Q.WaitersOf(g), u);
    NotBoth(k, f, g, owner);
    if owner == k.current[c] && IsPi(k, f) {
      OwnerGivesBack(k, c, f, all);
      StillListed(k, c, f, all, g);
    }
  }

  lemma NotBoth(k: Kernel, f: FutexId, g: FutexId, u: TaskId)
    requires BoundOk(k) && IsPi(k, g)
    ensures IsPi(k, f) && WaitsFor(k, f, u) ==> !Names(k, g, u)
  {
    hide Kernel.Look;
    assert Bounded(k, f, u);
  }

  lemma StillListed(k: Kernel, c: CoreId, f: FutexId, all: bool, g: FutexId)
    requires MutexesOk(k) && c in k.current && IsPi(k, f) && IsPi(k, g) && g != f && k.Waiters(g) != []
    requires Names(k, f, k.current[c]) && Names(k, g, k.current[c])
    ensures Calls(k, c) && OwnerLive(k, k.futexes[f].value) && g in Wake(k, c, f, all).0.owned.List(k.current[c])
  {
    hide Kernel.Look, Sane, MutexesOk, Placed, Wake, OwnerOf;
    Word(k, f);
    Word(k, g);
    CallerReady(k, c);
    Seen(k, k.current[c]);
    OwnerIsLive(k, f, k.current[c]);
    OwnerPriority(k, c, f, all);
    Parts(k);
    Ow.UnlinkGood(k.owned, f);
  }

  lemma WakeBounded(k: Kernel, c: CoreId, f: FutexId, all: bool, g: FutexId, u: TaskId)
    requires MutexesOk(k) && BoundOk(k) && c in k.current && Names(k, f, k.current[c])
    ensures Calls(k, c) && OwnerLive(k, k.futexes[f].value) && Bounded(Wake(k, c, f, all).0, g, u)
  {
    hide Kernel.Look, Sane, MutexesOk, Placed, Wake, OwnerOf;
    OwnerWakes(k, c, f, all);
    Word(k, f);
    Word(k, g);
    CallerReady(k, c);
    var r := Wake(k, c, f, all).0;
    if IsPi(r, g) && WaitsFor(r, g, u) {
      assert Handed(k, r, f, u) && Bounded(k, g, u);
      OnQueue(k, Q.WaitersOf(g), u);
      StillOwnsNoPi(k, c, f, all, u);
      if g == f {
        HeirUrgent(k, c, f, all, u);
        Seen(r, k.Waiters(f)[0]);
      } else if OwnerLive(r, r.futexes[g].value) {
        var owner: TaskId := OwnerOf(k.futexes[g].value);
        Seen(r, owner);
        Seen(k, owner);
        assert Handed(k, r, f, owner);
        OtherOwnerUrgent(k, c, f, all, g, u);
      }
    }
  }
}
