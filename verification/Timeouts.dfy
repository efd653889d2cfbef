/** Timeouts are neither missed nor early, as long as the tick counter does not wrap on the way. */
module Timeouts {
  import opened Types
  import opened Kernel
  import opened Steps
  import opened Placement
  import Q = TaskQueues
  import Tm = TaskTimers
  import Ow = OwnedFutexes

  /** The tick after which some timer has run out asks for a switch; without one it does so only for the time slice. */
  lemma TickNotices(k: Kernel, c: CoreId, sliced: bool)
    requires Sane(k)
    ensures var r := Tick(k, c, sliced);
            && (forall t :: Lapsed(r, t) ==> c in r.pending)
            && (c in r.pending && c !in k.pending && !sliced && r.Now() < UINT_MAX ==> exists t :: Lapsed(r, t))
  {
    hide Q.Good, Ow.Good;
    var r := Tick(k, c, sliced);
    forall t | Lapsed(r, t) ensures c in r.pending {
      var i :| 0 <= i < |r.timers.list| && r.timers.list[i] == t;
      assert r.timers.expires[r.timers.list[0]] <= r.timers.expires[r.timers.list[i]];
    }
    if c in r.pending && c !in k.pending && !sliced && r.Now() < UINT_MAX {
      assert r.timers.list[0] in r.timers.list;
      assert Lapsed(r, r.timers.list[0]);
    }
  }

  /** Exactly those whose timers have run out are made ready with a timeout, and then nobody's timer has. */
  lemma ExpiresExactly(k: Kernel, t: TaskId)
    requires Placed(k)
    ensures Sane(k)
    ensures var r := ExpireAll(k);
            && !Lapsed(r, t)
            && (Lapsed(k, t) ==> t in r.tasks && r.tasks[t].state.Ready? && r.tasks[t].result == -ETIMEDOUT)
            && (!Lapsed(k, t) ==> r.Look(t) == k.Look(t))
  {
    hide Kernel.Look, Sane, Placed, ExpireAll;
    PlacedSane(k);
    ExpireAllStep(k);
    Seen(ExpireAll(k), t);
  }

  /** Only blocked and suspended tasks have a timer running. */
  lemma TimersOfWaiters(k: Kernel, t: TaskId)
    requires Placed(k) && t in k.timers.list
    ensures t in k.tasks && (k.tasks[t].state.Blocked? || k.tasks[t].state.Suspended?)
  {
    hide Q.Good, Ow.Good;
    assert At(k, t);
  }

  /**
   A wait that blocks at tick `now` with a finite timeout runs out at exactly the ticks from `now` + timeout on,
   however the rest of the system has changed, if and only if that sum fits the 32-bit tick counter.
   */
  lemma WaitTimesOutExactly(k: Kernel, c: CoreId, f: FutexId, expected: int, delay: nat)
    requires Calls(k, c) && f in k.futexes && ShouldBlock(k.futexes[f], expected) && delay < WAIT_FOREVER && k.Now() < WORD
    requires k.futexes[f].kind == Mutex(true) ==> OwnerLive(k, k.futexes[f].value)
    ensures var cur := k.current[c]; var w := Wait(k, c, f, expected, delay).Look(cur);
            && w.Some? && w.value.timer.Some?
            && ((forall m: Kernel {:trigger Lapsed(m, cur)} :: m.Look(cur) == w && k.Now() <= m.Now() < WORD ==>
                   (Lapsed(m, cur) <==> k.Now() + delay <= m.Now()))
                <==> k.Now() + delay < WORD)
  {
    hide Kernel.Look, Sane, Wait, Lent;
    Seen(k, k.current[c]);
    WaitStep(k, c, f, expected, delay);
    if k.Now() + delay < WORD {
      Tm.DueExactly(k.Now(), delay);
    } else {
      assert Lapsed(Wait(k, c, f, expected, delay), k.current[c]);
    }
  }
}
