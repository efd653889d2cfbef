/**
 The kernel's side of a mutex: its word, its queue, its place on an owner's list and the owner's
 priority agree, after every service call and every switch.
 */
module MutexKernel {
  import opened Types
  import opened Sequences
  import opened Kernel
  import opened Steps
  import opened Placement
  import opened Calmness
  import Q = TaskQueues
  import Tm = TaskTimers
  import Ow = OwnedFutexes

  /** The word of mutex `f` names `t` as its owner. */
  predicate Names(k: Kernel, f: FutexId, t: TaskId) {
    IsMutex(k, f) && OwnerOf(k.futexes[f].value) == t
  }

  /**
   Nobody waits unless the word says so, a word that is not 0 names a task, and a mutex with priority
   inheritance is on an owned list exactly while contended, on the list of the task it names. Whether that task
   is still alive is not for the kernel to see to.
   */
  predicate WordOk(k: Kernel, f: FutexId) {
    var x := k.futexes;
    && (f in k.owned.link ==> f in x && x[f].kind == Mutex(true))
    && (IsMutex(k, f) ==>
          && (x[f].value == 0 || OwnerOf(x[f].value) > 0)
          && (k.Waiters(f) != [] ==> Contended(x[f].value))
          && (x[f].kind.inherits ==> (f in k.owned.link <==> Contended(x[f].value)))
          && (f in k.owned.link ==> k.owned.link[f] == OwnerOf(x[f].value)))
  }

  /** A task that owns no contended mutex with priority inheritance runs at its base priority. */
  predicate BoostOk(k: Kernel, t: TaskId) {
    k.Look(t).Some? && k.owned.List(t) == [] ==> k.Look(t).value.prio == k.Look(t).value.task.base
  }

  ghost predicate MutexesOk(k: Kernel) {
    && Placed(k)
    && (forall f :: WordOk(k, f))
    && (forall t :: BoostOk(k, t))
  }

  lemma NamesOne(k: Kernel, f: FutexId, t: TaskId, u: TaskId)
    ensures Names(k, f, t) && Names(k, f, u) ==> t == u
  {}

  lemma Word(k: Kernel, f: FutexId)
    requires MutexesOk(k)
    ensures WordOk(k, f) && Placed(k) && Sane(k)
  {
    hide Sane, Kernel.Look;
    PlacedSane(k);
  }

  /** Nothing changes for the mutexes when nothing happens to them. */
  lemma CalmKeeps(k: Kernel, k': Kernel, x: set<TaskId>, y: set<TaskId> := {})
    requires MutexesOk(k) && Placed(k') && Calm(k, k', x, y)
    ensures MutexesOk(k')
  {
    hide Kernel.Look, Sane, Placed;
    PlacedSane(k);
    PlacedSane(k');
    forall f ensures WordOk(k', f) {
      assert WordOk(k, f);
      if IsMutex(k', f) && k'.Waiters(f) != [] {
        var u := k'.Waiters(f)[0];
        OnQueue(k', Q.WaitersOf(f), u);
        OnQueue(k, Q.WaitersOf(f), u);
        assert CalmFace(k, k.Look(u), k'.Look(u), u in x, u in y);
      }
    }
    forall t ensures BoostOk(k', t) {
      assert CalmFace(k, k.Look(t), k'.Look(t), t in x, t in y) && BoostOk(k, t);
    }
  }

  // ----- wait on a mutex

  /** `f` has been put on the list of `t`, if it was not there already. */
  ghost predicate LinkedTo(o: Ow.Owned, o': Ow.Owned, f: FutexId, t: TaskId) {
    && (forall g :: g in o'.link <==> g in o.link || g == f)
    && (forall g :: g in o.link && g != f ==> o'.link[g] == o.link[g])
    && f in o'.link && o'.link[f] == t
    && (forall u :: u != t ==> (o'.List(u) == [] <==> o.List(u) == []))
    && f in o'.List(t)
  }

  lemma AddLinks(o: Ow.Owned, f: FutexId, t: TaskId)
    requires Ow.Good(o) && (f in o.link ==> o.link[f] == t)
    ensures LinkedTo(o, if f in o.link then o else Ow.Add(o, t, f), f, t)
  {
    hide Ow.ListLinked;
    if f !in o.link {
      assert (o.List(t) + [f])[|o.List(t)|] == f;
    }
  }

  /** Whom a blocking wait needs: the word names a task, and a live one if it is to inherit. */
  predicate MayWait(k: Kernel, f: FutexId) {
    && IsMutex(k, f) && OwnerOf(k.futexes[f].value) > 0
    && (k.futexes[f].kind.inherits ==> OwnerLive(k, k.futexes[f].value))
  }

  lemma WaitKeeps(k: Kernel, c: CoreId, f: FutexId, expected: int, delay: nat)
    requires MutexesOk(k) && c in k.current && IsMutex(k, f)
    requires ShouldBlock(k.futexes[f], expected) ==> MayWait(k, f)
    ensures Calls(k, c) && MutexesOk(Wait(k, c, f, expected, delay))
  {
    hide Kernel.Look, Sane, Placed, Wait, ShouldBlock, MutexesOk, Calm, Ow.Good, Ow.Add, Q.Good, Tm.Good;
    Word(k, f);
    CallerReady(k, c);
    var r := Wait(k, c, f, expected, delay);
    WaitPlaced(k, c, f, expected, delay);
    if ShouldBlock(k.futexes[f], expected) {
      Parts(k);
      WaitWords(k, c, f, expected, delay);
    } else {
      WaitCalm(k, c, f, expected, delay);
      WaitReadyStep(k, c, f, expected, delay);
      CalmKeeps(k, r, {k.current[c]});
    }
  }

  lemma WaitWords(k: Kernel, c: CoreId, f: FutexId, expected: int, delay: nat)
    requires MutexesOk(k) && c in k.current && IsMutex(k, f)
    requires ShouldBlock(k.futexes[f], expected) && MayWait(k, f)
    requires Calls(k, c) && Placed(Wait(k, c, f, expected, delay))
    ensures MutexesOk(Wait(k, c, f, expected, delay))
  {
    hide Kernel.Look, Sane, Placed, Wait, Ow.Good, Ow.Add, Q.Good, Tm.Good;
    Parts(k);
    assert WordOk(k, f);
    var r := Wait(k, c, f, expected, delay);
    var owner := OwnerOf(k.futexes[f].value);
    var pi := k.futexes[f].kind.inherits;
    WaitStep(k, c, f, expected, delay);
    if pi { AddLinks(k.owned, f, owner); }
    hide Lent;
    forall g ensures WordOk(r, g) {
      assert WordOk(k, g);
      WaitersAfter(k, r, c, f, g, delay);
    }
    forall t ensures BoostOk(r, t) {
      assert BoostOk(k, t) && r.Look(t) == WaitLook(k, c, f, delay, t);
    }
  }

  /** Only the queue of `f` may become longer. */
  lemma WaitersAfter(k: Kernel, r: Kernel, c: CoreId, f: FutexId, g: FutexId, delay: nat)
    requires Calls(k, c) && f in k.futexes && Sane(r)
    requires forall u :: r.Look(u) == WaitLook(k, c, f, delay, u)
    ensures g != f && r.Waiters(g) != [] ==> k.Waiters(g) != []
  {
    hide Kernel.Look, Sane, Lent;
    if g != f && r.Waiters(g) != [] {
      OnQueue(r, Q.WaitersOf(g), r.Waiters(g)[0]);
      OnQueue(k, Q.WaitersOf(g), r.Waiters(g)[0]);
    }
  }

  // ----- wake of a mutex

  predicate MayBeLent(k: Kernel, f: FutexId, t: TaskId) {
    Names(k, f, t) && k.futexes[f].kind.inherits
  }

  /** The owner gives back what `f` lent it: the word is not yet right, but everything else is. */
  ghost predicate Mid(k: Kernel, k1: Kernel, f: FutexId) {
    && Placed(k1)
    && k1 == k.(queues := k1.queues, owned := k1.owned)
    && (forall g :: g in k1.owned.link <==> g in k.owned.link && g != f)
    && (forall g :: g in k1.owned.link ==> k1.owned.link[g] == k.owned.link[g])
    && (forall u :: SamePlace(k.Look(u), k1.Look(u)) && (k1.Look(u) == k.Look(u) || MayBeLent(k, f, u)))
    && (forall t :: BoostOk(k1, t))
  }

  lemma UnlinkLinks(o: Ow.Owned, f: FutexId)
    requires Ow.Good(o)
    ensures var o' := Ow.Unlink(o, f);
            && (forall g :: g in o'.link <==> g in o.link && g != f)
            && (forall g :: g in o'.link ==> o'.link[g] == o.link[g])
            && (forall u :: o'.List(u) == [] && o.List(u) != [] ==> f in o.link && o.link[f] == u)
  {
    Ow.UnlinkGood(o, f);
    var o' := Ow.Unlink(o, f);
    forall u | o'.List(u) == [] && o.List(u) != [] ensures f in o.link && o.link[f] == u {
      assert Ow.ListLinked(o.link, u, o.List(u));
      assert o.List(u)[0] in o.List(u);
    }
  }

  lemma LoweredMid(k: Kernel, f: FutexId)
    requires MutexesOk(k) && IsMutex(k, f) && (k.futexes[f].kind.inherits ==> OwnerLive(k, k.futexes[f].value))
    ensures Sane(k) && Mid(k, Lowered(k, f), f)
  {
    hide Kernel.Look, Sane, Placed, Deboost, Ow.Good, Ow.Unlink, Q.Good, Tm.Good;
    Word(k, f);
    Parts(k);
    LoweredPlaced(k, f);
    var k1 := Lowered(k, f);
    if k.futexes[f].kind.inherits {
      var owner := OwnerOf(k.futexes[f].value);
      UnlinkLinks(k.owned, f);
      DeboostStep(k, f, owner);
      Seen(k, owner);
      if k1.owned.List(owner) == [] {
        assert MostUrgent(k.queues, [], k.tasks[owner].base) == k.tasks[owner].base;
      }
      hide MostUrgent;
      forall t ensures BoostOk(k1, t) {
        assert BoostOk(k, t);
      }
    }
  }

  lemma SameWaiters(k: Kernel, k1: Kernel, f: FutexId)
    requires Sane(k) && Sane(k1) && forall u :: SamePlace(k.Look(u), k1.Look(u))
    ensures k1.Waiters(f) == [] <==> k.Waiters(f) == []
  {
    hide Kernel.Look, Sane;
    if k1.Waiters(f) != [] {
      OnQueue(k1, Q.WaitersOf(f), k1.Waiters(f)[0]);
      OnQueue(k, Q.WaitersOf(f), k1.Waiters(f)[0]);
    }
    if k.Waiters(f) != [] {
      OnQueue(k1, Q.WaitersOf(f), k.Waiters(f)[0]);
      OnQueue(k, Q.WaitersOf(f), k.Waiters(f)[0]);
    }
  }

  lemma OwnerTwice(v: int)
    ensures OwnerOf(OwnerOf(v)) == OwnerOf(v) && !Contended(OwnerOf(v)) && OwnerOf(0) == 0
  {}

  lemma WakeNobodyWords(k: Kernel, k1: Kernel, f: FutexId, all: bool)
    requires MutexesOk(k) && Sane(k) && Mid(k, k1, f) && Sane(k1) && IsMutex(k, f) && k1.Waiters(f) == []
    requires Placed(WakeWaiters(k1, f, all))
    ensures MutexesOk(WakeWaiters(k1, f, all))
    ensures OwnerOf(WakeWaiters(k1, f, all).futexes[f].value) == OwnerOf(k.futexes[f].value)
  {
    hide Kernel.Look, Sane, Placed, WakeWaiters, OwnerOf, Contended;
    WakeNobodyStep(k1, f, all);
    var r := WakeWaiters(k1, f, all);
    OwnerTwice(k.futexes[f].value);
    forall g ensures WordOk(r, g) {
      assert WordOk(k, g);
      SameWaiters(k, k1, g);
      SameWaiters(k1, r, g);
    }
    forall t ensures BoostOk(r, t) {
      assert BoostOk(k1, t);
    }
  }

  lemma HandOffWords(k: Kernel, k1: Kernel, f: FutexId, all: bool)
    requires MutexesOk(k) && Sane(k) && Mid(k, k1, f) && Sane(k1) && IsMutex(k, f) && k1.Waiters(f) != []
    requires k.futexes[f].kind.inherits ==> f !in k1.owned.link
    requires Placed(WakeWaiters(k1, f, all))
    ensures MutexesOk(WakeWaiters(k1, f, all))
    ensures OwnerOf(WakeWaiters(k1, f, all).futexes[f].value) == k1.Waiters(f)[0]
  {
    hide Kernel.Look, Sane, Placed, WakeWaiters, OwnerOf, Contended, OwnerLive, Ow.Add, Ow.Good;
    var t := k1.Waiters(f)[0];
    WakeMutexStep(k1, f, all);
    var r := WakeWaiters(k1, f, all);
    WakeTail(k1, f, all);
    NextWord(r, f, t, |k1.Waiters(f)| > 1);
    Parts(k1);
    Seen(k1, t);
    Seen(r, t);
    if k.futexes[f].kind.inherits && |k1.Waiters(f)| > 1 { AddLinks(k1.owned, f, t); }
    forall g ensures WordOk(r, g) {
      assert WordOk(k, g);
      SameWaiters(k, k1, g);
      if g != f {
        QueueKept(k1, r, f, g);
      }
    }
    forall u ensures BoostOk(r, u) {
      assert BoostOk(k1, u) && r.Look(u) == WakeLook(k1, f, u);
    }
  }

  /** The word that a hand-off leaves. */
  lemma NextWord(r: Kernel, f: FutexId, t: TaskId, more: bool)
    ensures var v := (t as int) + (if more then 1 else 0);
            OwnerOf(v) == t && (Contended(v) <==> more) && (t in r.tasks ==> OwnerLive(r, v))
  {}

  lemma WakeTail(k: Kernel, f: FutexId, all: bool)
    requires Sane(k) && IsMutex(k, f) && k.Waiters(f) != []
    requires k.futexes[f].kind == Mutex(true) ==> f !in k.owned.link
    ensures WakeWaiters(k, f, all).Waiters(f) == k.Waiters(f)[1..]
  {
    hide Sane, WakeOne;
  }

  lemma QueueKept(k: Kernel, r: Kernel, f: FutexId, g: FutexId)
    requires Sane(k) && Sane(r) && k.Waiters(f) != [] && g != f
    requires forall u :: r.Look(u) == WakeLook(k, f, u)
    ensures r.Waiters(g) != [] ==> k.Waiters(g) != []
  {
    hide Kernel.Look, Sane;
    if r.Waiters(g) != [] {
      OnQueue(r, Q.WaitersOf(g), r.Waiters(g)[0]);
      OnQueue(k, Q.WaitersOf(g), r.Waiters(g)[0]);
    }
  }

  /** Waking a mutex keeps every word, every owned list and every boost right. */
  lemma WakeFutexKeeps(k: Kernel, f: FutexId, all: bool)
    requires MutexesOk(k) && IsMutex(k, f) && (k.futexes[f].kind.inherits ==> OwnerLive(k, k.futexes[f].value))
    ensures Sane(k) && MutexesOk(WakeFutex(k, f, all))
  {
    hide Kernel.Look, Sane, Placed, MutexesOk, Lowered, WakeWaiters;
    Word(k, f);
    LoweredMid(k, f);
    var k1 := Lowered(k, f);
    WakeWaitersPlaced(k1, f, all);
    if k1.Waiters(f) == [] {
      WakeNobodyWords(k, k1, f, all);
    } else {
      HandOffWords(k, k1, f, all);
    }
  }

  /** An owner that is not queued gives its priority back without disturbing any queue. */
  lemma LoweredQueues(k: Kernel, f: FutexId)
    requires Sane(k) && IsMutex(k, f)
    requires k.futexes[f].kind.inherits ==> OwnerLive(k, k.futexes[f].value) && k.Link(OwnerOf(k.futexes[f].value)).None?
    ensures Lowered(k, f).Waiters(f) == k.Waiters(f)
  {
    hide Q.Good, Tm.Good, Ow.Good, MostUrgent, Ow.Unlink;
  }

  /** What the owner's wake of its mutex does to `u`; `head` is the first waiter, if there is one. */
  predicate Handed(k: Kernel, r: Kernel, f: FutexId, u: TaskId) {
    if k.Waiters(f) != [] && u == k.Waiters(f)[0] then
      && k.Look(u).Some? && k.Look(u).value.link == Some(Q.WaitersOf(f))
      && r.Look(u).Some? && r.Look(u).value.link == Some(Q.ReadyQueue)
      && !Exposed(r.Look(u).value) && r.Look(u).value.task == k.Look(u).value.task.(state := Ready)
      && k.Look(u).value.task.result == 0
      && (IsMutex(k, f) && !k.futexes[f].kind.inherits ==> r.Look(u).value.prio == k.Look(u).value.prio)
    else SamePlace(k.Look(u), r.Look(u)) && (r.Look(u) == k.Look(u) || MayBeLent(k, f, u))
  }

  /**
   Direct hand-off: when its owner wakes a mutex somebody waits for, the word goes from the owner to the
   first waiter in one step; with nobody waiting it keeps naming the owner.
   */
  lemma OwnerWakes(k: Kernel, c: CoreId, f: FutexId, all: bool)
    requires MutexesOk(k) && c in k.current && Names(k, f, k.current[c])
    ensures Calls(k, c) && OwnerLive(k, k.futexes[f].value)
    ensures Wake(k, c, f, all).1 == if k.Waiters(f) == [] then 0 else 1
    ensures var r := Wake(k, c, f, all).0;
            && MutexesOk(r)
            && r == k.(queues := r.queues, timers := r.timers, tasks := r.tasks, owned := r.owned, pending := r.pending,
                       futexes := k.futexes[f := r.futexes[f]])
            && Names(r, f, if k.Waiters(f) == [] then k.current[c] else k.Waiters(f)[0])
            && r.futexes[f].kind == k.futexes[f].kind
            && forall u :: Handed(k, r, f, u)
  {
    hide Kernel.Look, Sane, Placed, MutexesOk, WakeFutex, Handed, RequestSwitch, OwnerOf;
    Word(k, f);
    CallerReady(k, c);
    Seen(k, k.current[c]);
    OwnerIsLive(k, f, k.current[c]);
    WakeFutexKeeps(k, f, all);
    var r := WakeFutex(k, f, all);
    OwnerWakesFutex(k, f, all);
    RequestKeeps(r, c);
    forall u ensures Handed(k, Wake(k, c, f, all).0, f, u) {
      HandedSame(k, r, Wake(k, c, f, all).0, f, u);
    }
    PendingStep(r, c);
  }

  lemma HandedSame(k: Kernel, r: Kernel, r': Kernel, f: FutexId, u: TaskId)
    requires Handed(k, r, f, u) && r'.Look(u) == r.Look(u)
    ensures Handed(k, r', f, u)
  {
    hide Kernel.Look;
  }

  lemma OwnerIsLive(k: Kernel, f: FutexId, t: TaskId)
    requires Names(k, f, t) && t in k.tasks
    ensures OwnerLive(k, k.futexes[f].value)
  {}

  lemma RequestKeeps(k: Kernel, c: CoreId)
    requires MutexesOk(k)
    ensures MutexesOk(RequestSwitch(k, c)) && forall u :: RequestSwitch(k, c).Look(u) == k.Look(u)
  {
    hide Kernel.Look, Sane, Placed;
    var r := RequestSwitch(k, c);
    Unmoved(k, r);
    PendingStep(k, c);
    forall f ensures WordOk(r, f) { assert WordOk(k, f); }
    forall t ensures BoostOk(r, t) { assert BoostOk(k, t); }
  }

  lemma OwnerWakesFutex(k: Kernel, f: FutexId, all: bool)
    requires MutexesOk(k) && IsMutex(k, f) && OwnerLive(k, k.futexes[f].value) && Sane(k)
    requires k.Link(OwnerOf(k.futexes[f].value)).None?
    ensures var r := WakeFutex(k, f, all);
            && r == k.(queues := r.queues, timers := r.timers, tasks := r.tasks, owned := r.owned,
                       futexes := k.futexes[f := r.futexes[f]])
            && Names(r, f, if k.Waiters(f) == [] then OwnerOf(k.futexes[f].value) else k.Waiters(f)[0])
            && r.futexes[f].kind == k.futexes[f].kind
            && forall u :: Handed(k, r, f, u)
  {
    hide Kernel.Look, Sane, Placed, MutexesOk, Lowered, WakeWaiters, OwnerOf;
    LoweredMid(k, f);
    LoweredQueues(k, f);
    var k1 := Lowered(k, f);
    var r := WakeFutex(k, f, all);
    if k.Waiters(f) == [] {
      WakeNobodyStep(k1, f, all);
      OwnerTwice(k.futexes[f].value);
    } else {
      var t := k.Waiters(f)[0];
      WakeMutexStep(k1, f, all);
      WaiterBlocked(k1, Q.WaitersOf(f), t);
      Seen(k1, t);
      NextWord(r, f, t, |k.Waiters(f)| > 1);
      forall u ensures Handed(k, r, f, u) {
        assert SamePlace(k.Look(u), k1.Look(u)) && r.Look(u) == WakeLook(k1, f, u);
      }
    }
  }

  // ----- user-side writes of a word

  /** A plain word may change freely, the word of a mutex between 0 and an owner while it is not contended. */
  lemma SetWordKeeps(k: Kernel, f: FutexId, v: int)
    requires MutexesOk(k) && f in k.futexes
    requires k.futexes[f].kind.Mutex? ==>
               !Contended(k.futexes[f].value) && !Contended(v) && (v == 0 || OwnerOf(v) > 0)
    ensures MutexesOk(SetWord(k, f, v))
  {
    hide Kernel.Look, Sane, Placed, OwnerOf, Contended;
    PlacedSane(k);
    var r := SetWord(k, f, v);
    SetWordStep(k, f, v);
    Graded(k, r);
    forall g ensures WordOk(r, g) {
      assert WordOk(k, g) && WordOk(k, f);
    }
    forall t ensures BoostOk(r, t) {
      assert BoostOk(k, t);
    }
  }

  lemma SameLive(k: Kernel, r: Kernel, v: int)
    requires r.tasks.Keys == k.tasks.Keys
    ensures OwnerLive(k, v) <==> OwnerLive(r, v)
  {}

  /** After a hand-off the flag says exactly whether somebody is still waiting. */
  lemma FlagAfterWake(k: Kernel, c: CoreId, f: FutexId, all: bool)
    requires MutexesOk(k) && c in k.current && Names(k, f, k.current[c]) && k.Waiters(f) != []
    ensures Calls(k, c) && OwnerLive(k, k.futexes[f].value)
    ensures var r := Wake(k, c, f, all).0;
            f in r.futexes && (Contended(r.futexes[f].value) <==> r.Waiters(f) != [])
  {
    hide Kernel.Look, Sane, Placed, MutexesOk, Lowered, WakeWaiters, OwnerOf, Contended;
    OwnerWakes(k, c, f, all);
    CallerIdle(k, c, f);
    LoweredMid(k, f);
    LoweredQueues(k, f);
    var k1 := Lowered(k, f);
    WakeMutexStep(k1, f, all);
    WakeTail(k1, f, all);
    NextWord(k1, f, k.Waiters(f)[0], |k.Waiters(f)| > 1);
  }

  lemma CallerIdle(k: Kernel, c: CoreId, f: FutexId)
    requires MutexesOk(k) && c in k.current && Names(k, f, k.current[c])
    ensures k.Link(OwnerOf(k.futexes[f].value)).None?
  {
    hide Kernel.Look, Sane, Placed;
    CallerReady(k, c);
    Seen(k, k.current[c]);
  }
}
