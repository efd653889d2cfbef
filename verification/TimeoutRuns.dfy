/** Timed waits over whole runs: when a wait with a timeout ends, and with what result. */
module TimeoutRuns {
  import opened Types
  import opened K = Kernel
  import opened Steps
  import opened Placement
  import opened Calmness
  import opened MutexKernel
  import opened MutexRuns
  import P = MutexProtocol
  import Q = TaskQueues
  import Tm = TaskTimers

  /** The tick at which a timeout of `delay` that is started now runs out, if ever. */
  function EndOf(now: nat, delay: nat): Option<nat> {
    if delay < WAIT_FOREVER then Some(Tm.Deadline(now, delay)) else None
  }

  predicate DueBy(d: Option<nat>, now: nat) {
    d.Some? && Tm.Due(d.value, now)
  }

  /** `t` is blocked, and its timeout runs out at tick `d`, if it has one. */
  predicate Waiting(k: K.Kernel, t: TaskId, d: Option<nat>) {
    k.Look(t).Some? && var w := k.Look(t).value; w.task.state.Blocked? && w.timer == d && w.task.result == 0
  }

  /** The wait of `t` is over and returns, or is going to return, `result`. */
  predicate Over(k: K.Kernel, t: TaskId, result: int) {
    k.Look(t).Some? && var w := k.Look(t).value; !w.task.state.Blocked? && w.timer.None? && w.task.result == result
  }

  /** Another look at the task that differs in its priorities at most. */
  lemma SameWait(k: K.Kernel, k': K.Kernel, t: TaskId, d: Option<nat>)
    requires SamePlace(k.Look(t), k'.Look(t))
    ensures Waiting(k, t, d) ==> Waiting(k', t, d)
  {
    hide K.Kernel.Look;
  }

  // ----- the context switch

  lemma {:induction false} DeferredWait(k: K.Kernel, wakes: seq<(FutexId, bool)>, t: TaskId, d: Option<nat>)
    requires Placed(k) && PlainOnly(k, wakes)
    ensures Sane(k)
    ensures var r := WakeDeferred(k, wakes);
            && (Waiting(k, t, d) ==> Waiting(r, t, d) || Over(r, t, 0))
            && (Over(k, t, 0) ==> Over(r, t, 0))
    decreases |wakes|
  {
    hide K.Kernel.Look, Sane, Placed, WakeLoop, WakeFutex, Woken;
    PlacedSane(k);
    if wakes != [] {
      var f, all := wakes[0].0, wakes[0].1;
      WakePlain(k, f, all);
      WakeLoopStep(k, f, all);
      WakeFutexPlaced(k, f, all);
      DeferredWait(WakeFutex(k, f, all), wakes[1..], t, d);
    }
  }

  lemma RoundWait(k: K.Kernel, c: CoreId, wakes: seq<(FutexId, bool)>, corrupt: set<TaskId>, started: bool, t: TaskId, d: Option<nat>)
    requires Placed(k) && PlainOnly(k, wakes) && c !in k.current && c < k.cores && Waiting(k, t, d)
    ensures Sane(k)
    ensures var r := Round(k, c, wakes, corrupt, started).0;
            if DueBy(d, k.Now()) then r.Look(t).None? || Over(r, t, 0) || Over(r, t, -ETIMEDOUT)
            else Waiting(r, t, d) || r.Look(t).None? || Over(r, t, 0)
  {
    hide K.Kernel.Look, Sane, Placed, WakeDeferred, ExpireAll, Dequeue, Dispatch, Evict, Bury;
    PlacedSane(k);
    DeferredWait(k, wakes, t, d);
    WakeDeferredPlaced(k, wakes);
    WakeDeferredKept(k, wakes);
    var k0 := WakeDeferred(k, wakes);
    ExpireAllPlaced(k0);
    ExpireAllStep(k0);
    var k1 := ExpireAll(k0);
    var i := Q.FirstIn(k1.Ready(), Eligible(k1, c));
    if i < |k1.Ready()| {
      var u := k1.Ready()[i];
      WaiterBlocked(k1, Q.ReadyQueue, u);
      EvictPlaced(k1, u);
      BuryStep(k1, u);
      DispatchStep(k1, c, u);
    }
  }

  lemma SwitchWait(k: K.Kernel, c: CoreId, wakes: seq<(FutexId, bool)>, corrupt: set<TaskId>, started: bool, t: TaskId, d: Option<nat>)
    requires Placed(k) && PlainOnly(k, wakes) && c < k.cores && Waiting(k, t, d)
    ensures Sane(k) && (c in k.current ==> Calls(k, c))
    ensures var (r, out) := K.Switch(k, c, wakes, corrupt, started);
            if out.Kept? then Waiting(r, t, d)
            else if DueBy(d, k.Now()) then r.Look(t).None? || Over(r, t, 0) || Over(r, t, -ETIMEDOUT)
            else Waiting(r, t, d) || r.Look(t).None? || Over(r, t, 0)
  {
    hide K.Kernel.Look, Sane, Placed, Round, Requeue;
    PlacedSane(k);
    if c in k.current {
      CallerReady(k, c);
    }
    var k0 := k.(pending := k.pending - {c});
    Unmoved(k, k0);
    SameLooks(k, k0);
    if c !in k.current {
      RoundWait(k0, c, wakes, corrupt, started, t, d);
      RoundNotKept(k0, c, wakes, corrupt, started);
    } else if k.locked >= 0 {
      RequeuePlaced(k0, c);
      RequeueStep(k0, c);
      RoundWait(Requeue(k0, c), c, wakes, corrupt, started, t, d);
      RoundNotKept(Requeue(k0, c), c, wakes, corrupt, started);
    }
  }

  lemma RoundNotKept(k: K.Kernel, c: CoreId, wakes: seq<(FutexId, bool)>, corrupt: set<TaskId>, started: bool)
    requires Sane(k) && PlainOnly(k, wakes)
    ensures !Round(k, c, wakes, corrupt, started).1.Kept?
  {
    hide Sane;
  }

  // ----- every other step

  /** The switch of an unlocked scheduler, or of a core that runs nobody. */
  predicate Switches(s: P.System, a: Action) {
    a.Switch? && !(a.core in s.k.current && s.k.locked < 0)
  }

  /** What a step can do to a wait of `t` that runs out at tick `d`. */
  predicate Continues(s: P.System, a: Action, k': K.Kernel, t: TaskId, d: Option<nat>) {
    || Waiting(k', t, d)
    || (k'.Look(t).None? && Dismisses(a, t))
    || (Over(k', t, -ETIMEDOUT) && Switches(s, a) && DueBy(d, s.k.Now()))
    || (Over(k', t, -ECANCELED) && a.Service? && a.call == Resume(t))
    || (Over(k', t, 0) && (a.SvcWake? || a.Switch? || (a.Service? && (a.call.WakeUp? || (a.call.Suspend? && a.call.task == t)))))
  }

  lemma PlainWait(k: K.Kernel, c: CoreId, f: FutexId, expected: int, delay: nat, t: TaskId, d: Option<nat>)
    requires Calls(k, c) && IsPlain(k, f) && Waiting(k, t, d) && t != k.current[c]
    ensures Waiting(K.Wait(k, c, f, expected, delay), t, d)
  {
    hide K.Kernel.Look, Sane, Lent, ShouldBlock, K.Wait;
    if ShouldBlock(k.futexes[f], expected) {
      WaitStep(k, c, f, expected, delay);
    } else {
      WaitReadyStep(k, c, f, expected, delay);
    }
  }

  lemma PlainWake(k: K.Kernel, c: CoreId, f: FutexId, all: bool, t: TaskId, d: Option<nat>)
    requires Calls(k, c) && IsPlain(k, f) && Waiting(k, t, d)
    ensures var r := K.Wake(k, c, f, all).0; Waiting(r, t, d) || Over(r, t, 0)
  {
    hide K.Kernel.Look, Sane, Woken, WakeFutex, WakeLoop, RequestSwitch, WokenBy, Lowered;
    WakePlain(k, f, all);
    WakeLoopStep(k, f, all);
    PendingStep(WakeLoop(k, f, all), c);
  }

  lemma ServeWait(s: P.System, c: CoreId, call: Call, t: TaskId, d: Option<nat>)
    requires P.Inv(s) && Runs(s, c) && PcAt(s, c).Idle? && CallEnabled(s, c, call) && Waiting(s.k, t, d)
    ensures Calls(s.k, c) && Continues(s, Service(c, call), Serve(s, c, call).k, t, d)
  {
    hide K.Kernel.Look, MutexesOk, Placed, Sane, P.Inv, Rouse, P.MayGo, K.Wait, K.Wake;
    P.CallerReadySane(s);
    CallerReady(s.k, c);
    var k := s.k;
    match call
    case Suspend(u, delay) =>
      Seen(k, u);
      if u in k.tasks { SuspendStep(k, c, u, delay); } else { NoSuchTask(k, c, u); }
    case Resume(u) =>
      Seen(k, u);
      PendingStep(k, c);
      if u in k.tasks && (k.tasks[u].state.Blocked? || k.tasks[u].state.Suspended?) { ResumeStep(k, c, u); }
    case Create(u, prio, affinity, daemon, suspended) =>
      CreateStep(k, c, u, prio, affinity, daemon, suspended);
      Seen(k, u);
    case Terminate(u) =>
      if u in k.tasks { TerminateStep(k, c, u); } else { NoSuchTask(k, c, u); }
    case SetPriority(u, p) =>
      Seen(k, u);
      if u in k.tasks { SetPriorityStep(k, c, u, p); } else { NoSuchTask(k, c, u); }
    case WaitOn(f, expected, delay) => PlainWait(k, c, f, expected, delay, t, d);
    case WakeUp(f, all) => PlainWake(k, c, f, all, t, d);
  }

  lemma MutexWait(s: P.System, a: Action, t: TaskId, d: Option<nat>)
    requires P.Inv(s) && Enabled(s, a) && Asserted(s, a) && Waiting(s.k, t, d) && (a.SvcWait? || a.SvcWake?)
    ensures Continues(s, a, Apply(s, a).0.k, t, d)
  {
    hide K.Kernel.Look, MutexesOk, Placed, Sane, P.Inv, P.PcOk, K.Wait, K.Wake, OwnerOf, Handed;
    P.CallerReadySane(s);
    CallerReady(s.k, a.c);
    var k' := Apply(s, a).0.k;
    if a.SvcWait? {
      P.WaitingPcOk(s, a.c);
      SameWait(s.k, k', t, d);
    } else {
      P.CallWakeOk(s, a.c);
      OwnerWakes(s.k, a.c, PcAt(s, a.c).f, false);
      assert Handed(s.k, k', PcAt(s, a.c).f, t);
      HandedWait(s.k, k', PcAt(s, a.c).f, t, d);
    }
  }

  lemma HandedWait(k: K.Kernel, k': K.Kernel, f: FutexId, t: TaskId, d: Option<nat>)
    requires Handed(k, k', f, t)
    ensures Waiting(k, t, d) ==> Waiting(k', t, d) || Over(k', t, 0)
  {
    hide K.Kernel.Look, K.Kernel.Waiters;
  }

  /**
   A step ends a wait in one of four ways: with a timeout, by a switch that finds its deadline passed; with a
   cancellation, by a resume; with success, by a wake or when another task suspends it; or with the task itself. And no
   switch finds the deadline passed and leaves it waiting.
   */
  lemma StepWait(s: P.System, a: Action, t: TaskId, d: Option<nat>)
    requires P.Inv(s) && Enabled(s, a) && Asserted(s, a) && Waiting(s.k, t, d)
    ensures Continues(s, a, Apply(s, a).0.k, t, d)
    ensures Switches(s, a) && DueBy(d, s.k.Now()) ==> !Waiting(Apply(s, a).0.k, t, d)
  {
    hide K.Kernel.Look, MutexesOk, Placed, Sane, P.Inv, P.PcOk, Calls, Serve, P.SvcWait, P.SvcWake, K.Switch, K.Tick;
    P.CallerReadySane(s);
    match a
    case SvcWait(_) => MutexWait(s, a, t, d);
    case SvcWake(_) => MutexWait(s, a, t, d);
    case Service(c, call) => ServeWait(s, c, call, t, d);
    case Tick(c, sliced) => TickStep(s.k, c, sliced);
    case Switch(c, wakes, corrupt, started) =>
      SwitchWait(s.k, c, wakes, corrupt, started, t, d);
      SwitchAlive(s.k, c, wakes, corrupt, started);
      KeptExactly(s.k, c, wakes, corrupt, started);
    case Poke(f, v) => SetWordStep(s.k, f, v);
    case Swap(c) => SetWordStep(s.k, PcAt(s, c).f, s.k.current[c]);
    case SwapOut(c) => SetWordStep(s.k, PcAt(s, c).f, 0);
    case Lock(n) => SameLooks(s.k, s.k.(locked := n));
    case _ =>
  }

  lemma KeptExactly(k: K.Kernel, c: CoreId, wakes: seq<(FutexId, bool)>, corrupt: set<TaskId>, started: bool)
    requires Sane(k) && PlainOnly(k, wakes) && (c in k.current ==> Calls(k, c))
    ensures K.Switch(k, c, wakes, corrupt, started).1.Kept? <==> c in k.current && k.locked < 0
  {
    hide Sane, Round, Requeue;
    var k0 := k.(pending := k.pending - {c});
    if c !in k.current {
      SaneFor(k, k0, c);
      RoundNotKept(k0, c, wakes, corrupt, started);
    } else if k.locked >= 0 {
      SaneFor(k, k0, c);
      RoundNotKept(Requeue(k0, c), c, wakes, corrupt, started);
    }
  }

  lemma SaneFor(k: K.Kernel, k0: K.Kernel, c: CoreId)
    requires Sane(k) && (c in k.current ==> Calls(k, c)) && k0 == k.(pending := k0.pending)
    ensures Sane(k0) && (c in k.current ==> Calls(k0, c))
  {}

  // ----- whole runs

  /** A run on which `t` waits all the time. */
  ghost predicate LeadsWaiting(s: P.System, steps: seq<Action>, s': P.System, t: TaskId, d: Option<nat>)
    decreases |steps|
  {
    && Waiting(s.k, t, d)
    && if steps == [] then s' == s
       else
         && Enabled(s, steps[0]) && Asserted(s, steps[0])
         && LeadsWaiting(Apply(s, steps[0]).0, steps[1..], s', t, d)
  }

  /** No switch along such a run has found the deadline passed. */
  ghost predicate NeverMissed(s: P.System, steps: seq<Action>, d: Option<nat>)
    decreases |steps|
  {
    steps != [] && Enabled(s, steps[0]) && Asserted(s, steps[0]) ==>
      (Switches(s, steps[0]) ==> !DueBy(d, s.k.Now())) && NeverMissed(Apply(s, steps[0]).0, steps[1..], d)
  }

  lemma {:induction false} WaitsOn(s: P.System, steps: seq<Action>, s': P.System, t: TaskId, d: Option<nat>)
    requires P.Inv(s) && LeadsWaiting(s, steps, s', t, d)
    ensures P.Inv(s') && Waiting(s'.k, t, d) && NeverMissed(s, steps, d)
    decreases |steps|
  {
    hide P.Inv, Enabled, Asserted, Apply, Waiting, Continues, Switches, DueBy;
    if steps != [] {
      ApplyKeeps(s, steps[0]);
      StepWait(s, steps[0], t, d);
      WaitingAtStart(Apply(s, steps[0]).0, steps[1..], s', t, d);
      WaitsOn(Apply(s, steps[0]).0, steps[1..], s', t, d);
    }
  }

  lemma WaitingAtStart(s: P.System, steps: seq<Action>, s': P.System, t: TaskId, d: Option<nat>)
    requires LeadsWaiting(s, steps, s', t, d)
    ensures Waiting(s.k, t, d)
  {
    hide Enabled, Asserted, Apply, Waiting;
  }

  /** The step with which the thread on core `c` starts a wait with timeout `delay`, which may be none. */
  predicate StartsWait(s: P.System, a: Action, c: CoreId, delay: nat) {
    && Runs(s, c)
    && match a
       case SvcWait(c') =>
         c' == c && PcAt(s, c).CallWait? && PcAt(s, c).delay == delay && PcAt(s, c).f in s.k.futexes
         && ShouldBlock(s.k.futexes[PcAt(s, c).f], PcAt(s, c).expected)
       case Service(c', WaitOn(f, expected, delay')) =>
         c' == c && delay' == delay && f in s.k.futexes && ShouldBlock(s.k.futexes[f], expected)
       case _ => false
  }

  lemma Starts(s: P.System, a: Action, c: CoreId, delay: nat)
    requires P.Inv(s) && Enabled(s, a) && Asserted(s, a) && StartsWait(s, a, c, delay)
    ensures Waiting(Apply(s, a).0.k, s.k.current[c], EndOf(s.k.Now(), delay))
  {
    hide K.Kernel.Look, MutexesOk, Placed, Sane, P.Inv, P.PcOk, K.Wait, Lent, ShouldBlock;
    P.CallerReadySane(s);
    P.Running(s, c);
    if a.SvcWait? {
      var pc := PcAt(s, c);
      P.WaitCallable(s, c);
      WaitStep(s.k, c, pc.f, pc.expected, delay);
    } else {
      WaitStep(s.k, c, a.call.futex, a.call.expected, delay);
    }
  }

  /**
   A wait with a timeout on any run, from tick `n` on, as long as the tick counter does not wrap: it is never over with
   a timeout before `n` + `delay`, no switch after that leaves it waiting, and it ends in no other way than by a timeout
   that a switch finds, a resume, a wake, a suspension or the end of the task.
   */
  lemma TimedWait(s0: P.System, before: seq<Action>, s: P.System, a: Action, c: CoreId, delay: nat,
                  steps: seq<Action>, s': P.System, b: Action)
    requires Start(s0) && Leads(s0, before, s) && Enabled(s, a) && Asserted(s, a)
    requires StartsWait(s, a, c, delay) && delay < WAIT_FOREVER && s.k.Now() + delay < WORD
    requires LeadsWaiting(Apply(s, a).0, steps, s', s.k.current[c], Some(s.k.Now() + delay))
    ensures NeverMissed(Apply(s, a).0, steps, Some(s.k.Now() + delay))
    ensures Waiting(Apply(s, a).0.k, s.k.current[c], Some(s.k.Now() + delay))
    ensures Enabled(s', b) && Asserted(s', b) ==>
              var r := Apply(s', b).0.k; var t := s.k.current[c]; var d := s.k.Now() + delay;
              && Continues(s', b, r, t, Some(d))
              && (Over(r, t, -ETIMEDOUT) ==> Switches(s', b) && d <= s'.k.Now())
              && (Switches(s', b) && d <= s'.k.Now() ==> !Waiting(r, t, Some(d)))
  {
    hide P.Inv, Enabled, Asserted, Apply, Start, Leads, LeadsWaiting, NeverMissed, K.Kernel.Look;
    StartInv(s0);
    RunsKeep(s0, before, s);
    ApplyKeeps(s, a);
    Starts(s, a, c, delay);
    var t, d := s.k.current[c], s.k.Now() + delay;
    WaitsOn(Apply(s, a).0, steps, s', t, Some(d));
    if Enabled(s', b) && Asserted(s', b) {
      StepWait(s', b, t, Some(d));
    }
  }
}
