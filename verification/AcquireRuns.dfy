/**
 What acquire does about its timeout, over whole runs: with the arguments of each pending call kept as a history, every
 wait that a call makes is a wait for its mutex with its timeout, and every answer is the right one.
 */
module AcquireRuns {
  import opened Types
  import opened K = Kernel
  import opened Steps
  import opened Placement
  import opened Calmness
  import opened MutexKernel
  import opened MutexRuns
  import opened TimeoutRuns
  import P = MutexProtocol
  import Q = TaskQueues
  import Tm = TaskTimers

  // ----- a wait that is over stays over

  lemma {:induction false} DeferredOver(k: K.Kernel, wakes: seq<(FutexId, bool)>, t: TaskId, x: int)
    requires Placed(k) && PlainOnly(k, wakes) && Over(k, t, x)
    ensures Sane(k) && Over(WakeDeferred(k, wakes), t, x)
    decreases |wakes|
  {
    hide K.Kernel.Look, Sane, Placed, WakeLoop, WakeFutex, Woken;
    PlacedSane(k);
    if wakes != [] {
      var f, all := wakes[0].0, wakes[0].1;
      WakePlain(k, f, all);
      WakeLoopStep(k, f, all);
      WakeFutexPlaced(k, f, all);
      DeferredOver(WakeFutex(k, f, all), wakes[1..], t, x);
    }
  }

  lemma RoundOver(k: K.Kernel, c: CoreId, wakes: seq<(FutexId, bool)>, corrupt: set<TaskId>, started: bool, t: TaskId, x: int)
    requires Placed(k) && PlainOnly(k, wakes) && c !in k.current && c < k.cores && Sane(k) && Over(WakeDeferred(k, wakes), t, x)
    ensures var r := Round(k, c, wakes, corrupt, started).0; Over(r, t, x) || r.Look(t).None?
  {
    hide K.Kernel.Look, Sane, Placed, WakeDeferred, ExpireAll, Dequeue, Dispatch, Evict, Bury;
    WakeDeferredPlaced(k, wakes);
    WakeDeferredKept(k, wakes);
    var k0 := WakeDeferred(k, wakes);
    ExpireAllPlaced(k0);
    ExpireAllStep(k0);
    var k1 := ExpireAll(k0);
    assert k1.Look(t) == ExpireLook(k0, t);
    var i := Q.FirstIn(k1.Ready(), Eligible(k1, c));
    if i < |k1.Ready()| {
      var u := k1.Ready()[i];
      WaiterBlocked(k1, Q.ReadyQueue, u);
      EvictPlaced(k1, u);
      BuryStep(k1, u);
      DispatchStep(k1, c, u);
    }
  }

  lemma SwitchOver(k: K.Kernel, c: CoreId, wakes: seq<(FutexId, bool)>, corrupt: set<TaskId>, started: bool, t: TaskId, x: int)
    requires Placed(k) && PlainOnly(k, wakes) && c < k.cores && Over(k, t, x)
    ensures Sane(k) && (c in k.current ==> Calls(k, c))
    ensures var r := K.Switch(k, c, wakes, corrupt, started).0; Over(r, t, x) || r.Look(t).None?
  {
    hide K.Kernel.Look, Sane, Placed, Round, Requeue;
    PlacedSane(k);
    if c in k.current {
      CallerReady(k, c);
    }
    var k0 := k.(pending := k.pending - {c});
    Unmoved(k, k0);
    SameLooks(k, k0);
    if c !in k.current {
      DeferredOver(k0, wakes, t, x);
      RoundOver(k0, c, wakes, corrupt, started, t, x);
    } else if k.locked >= 0 {
      RequeuePlaced(k0, c);
      RequeueStep(k0, c);
      DeferredOver(Requeue(k0, c), wakes, t, x);
      RoundOver(Requeue(k0, c), c, wakes, corrupt, started, t, x);
    }
  }

  lemma PlainOver(k: K.Kernel, c: CoreId, f: FutexId, expected: int, delay: nat, all: bool, t: TaskId, x: int)
    requires Calls(k, c) && IsPlain(k, f) && Over(k, t, x) && t != k.current[c]
    ensures Over(K.Wait(k, c, f, expected, delay), t, x) && Over(K.Wake(k, c, f, all).0, t, x)
  {
    hide K.Kernel.Look, Sane, Lent, ShouldBlock, K.Wait, Woken, WakeFutex;
    if ShouldBlock(k.futexes[f], expected) {
      WaitStep(k, c, f, expected, delay);
    } else {
      WaitReadyStep(k, c, f, expected, delay);
    }
    WakePlain(k, f, all);
    WakeLoopStep(k, f, all);
    PendingStep(WakeLoop(k, f, all), c);
  }

  lemma ServeOver(s: P.System, c: CoreId, call: Call, t: TaskId, x: int)
    requires P.Inv(s) && Runs(s, c) && PcAt(s, c).Idle? && CallEnabled(s, c, call) && Over(s.k, t, x) && t != s.k.current[c]
    ensures Calls(s.k, c)
    ensures var r := Serve(s, c, call).k; Over(r, t, x) || r.Look(t).None?
  {
    hide K.Kernel.Look, MutexesOk, Placed, Sane, P.Inv, Rouse, P.MayGo, K.Wait, K.Wake;
    P.CallerReadySane(s);
    CallerReady(s.k, c);
    var k := s.k;
    match call
    case Suspend(u, delay) =>
      Seen(k, u);
      if u in k.tasks { SuspendStep(k, c, u, delay); } else { NoSuchTask(k, c, u); }
    case Resume(u) =>
      Seen(k, u);
      PendingStep(k, c);
      if u in k.tasks && (k.tasks[u].state.Blocked? || k.tasks[u].state.Suspended?) { ResumeStep(k, c, u); }
    case Create(u, prio, affinity, daemon, suspended) =>
      CreateStep(k, c, u, prio, affinity, daemon, suspended);
      Seen(k, u);
    case Terminate(u) =>
      if u in k.tasks { TerminateStep(k, c, u); } else { NoSuchTask(k, c, u); }
    case SetPriority(u, p) =>
      Seen(k, u);
      if u in k.tasks { SetPriorityStep(k, c, u, p); } else { NoSuchTask(k, c, u); }
    case WaitOn(f, expected, delay) => PlainOver(k, c, f, expected, delay, false, t, x);
    case WakeUp(f, all) => PlainOver(k, c, f, 0, 0, all, t, x);
  }

  lemma HandedOver(k: K.Kernel, r: K.Kernel, f: FutexId, t: TaskId, x: int)
    requires Handed(k, r, f, t)
    ensures Over(k, t, x) ==> Over(r, t, x)
  {
    hide K.Kernel.Look, K.Kernel.Waiters;
  }

  lemma SameOver(k: K.Kernel, r: K.Kernel, t: TaskId, x: int)
    requires SamePlace(k.Look(t), r.Look(t))
    ensures Over(k, t, x) ==> Over(r, t, x)
  {
    hide K.Kernel.Look;
  }

  /** Until the thread looks at the result of its wait, nothing but its own end changes it. */
  lemma StepOver(s: P.System, a: Action, t: TaskId, x: int)
    requires P.Inv(s) && Enabled(s, a) && Asserted(s, a) && Over(s.k, t, x) && t in s.threads && s.threads[t].pc.Waited?
    ensures var r := Apply(s, a).0.k; Over(r, t, x) || r.Look(t).None?
  {
    hide K.Kernel.Look, MutexesOk, Placed, Sane, P.Inv, P.PcOk, Calls, Serve, K.Wait, K.Wake, K.Switch, K.Tick, OwnerOf, Handed;
    P.CallerReadySane(s);
    match a
    case SvcWait(c) =>
      P.WaitingPcOk(s, c);
      SameOver(s.k, P.SvcWait(s, c).k, t, x);
    case SvcWake(c) =>
      P.CallWakeOk(s, c);
      OwnerWakes(s.k, c, PcAt(s, c).f, false);
      assert Handed(s.k, P.SvcWake(s, c).0.k, PcAt(s, c).f, t);
      HandedOver(s.k, P.SvcWake(s, c).0.k, PcAt(s, c).f, t, x);
    case Service(c, call) => ServeOver(s, c, call, t, x);
    case Tick(c, sliced) => TickStep(s.k, c, sliced);
    case Switch(c, wakes, corrupt, started) => SwitchOver(s.k, c, wakes, corrupt, started, t, x);
    case Poke(f, v) => SetWordStep(s.k, f, v);
    case Swap(c) => SetWordStep(s.k, PcAt(s, c).f, s.k.current[c]);
    case SwapOut(c) => SetWordStep(s.k, PcAt(s, c).f, 0);
    case Lock(n) => SameLooks(s.k, s.k.(locked := n));
    case _ =>
  }

  // ----- the history of the pending calls

  /**
   A pending acquire: its arguments, the word that it has seen last, the tick at which it has last asked to wait, and
   whether, since then, a switch has found the timeout passed or somebody has resumed the thread.
   */
  datatype Request = Request(
    f: FutexId, delay: nat, rtos: bool, seen: int, began: Option<nat>, late: bool, cancelled: bool)

  /** A zero timeout of the RTOS layer. */
  predicate Polls(q: Request) {
    q.rtos && q.delay == 0
  }

  predicate Late(q: Request, now: nat) {
    q.began.Some? && DueBy(EndOf(q.began.value, q.delay), now)
  }

  type History = map<TaskId, Request>

  function Entered(h: History, s: P.System, a: Action): History
    requires a.Acquire?
  {
    if a.c in s.k.current then h[s.k.current[a.c] := Request(a.f, a.delay, a.rtos, 0, None, false, false)] else h
  }

  function Looked(h: History, s: P.System, t: TaskId): History {
    if t in h && h[t].f in s.k.futexes then h[t := h[t].(seen := s.k.futexes[h[t].f].value)] else h
  }

  function Asked(h: History, s: P.System, t: TaskId): History {
    if t in h then h[t := h[t].(began := Some(s.k.Now()), late := false, cancelled := false)] else h
  }

  function Resumed(h: History, t: TaskId): History {
    if t in h then h[t := h[t].(cancelled := true)] else h
  }

  function Passed(h: History, now: nat): History {
    map t | t in h :: if Late(h[t], now) then h[t].(late := true) else h[t]
  }

  /** The history after a step. */
  function Note(h: History, s: P.System, a: Action): History {
    match a
    case Acquire(_, _, _, _) => Entered(h, s, a)
    case Swap(c) => if c in s.k.current then Looked(h, s, s.k.current[c]) else h
    case SvcWait(c) => if c in s.k.current then Asked(h, s, s.k.current[c]) else h
    case Service(_, call) => if call.Resume? then Resumed(h, call.task) else h
    case Switch(_, _, _, _) => if Switches(s, a) then Passed(h, s.k.Now()) else h
    case _ => h
  }

  ghost predicate LeadsNoting(s: P.System, h: History, steps: seq<Action>, s': P.System, h': History)
    decreases |steps|
  {
    if steps == [] then s' == s && h' == h
    else
      && Enabled(s, steps[0]) && Asserted(s, steps[0])
      && LeadsNoting(Apply(s, steps[0]).0, Note(h, s, steps[0]), steps[1..], s', h')
  }

  // ----- the algorithm agrees with the history

  /** A thread at `pc` has the arguments of its call in hand. */
  predicate Matches(pc: P.Pc, q: Request) {
    && P.Acquiring(pc, q.f) && pc.delay == q.delay
    && (if pc.TryLock? then pc.polls == Polls(q) else !Polls(q))
    && (Polls(q) ==> q.began.None?)
    && (pc.CallWait? ==> pc.expected == q.seen)
  }

  /** How far the wait of `t` is. */
  predicate Progress(k: K.Kernel, t: TaskId, q: Request) {
    || Over(k, t, 0)
    || (q.began.Some? && Waiting(k, t, EndOf(q.began.value, q.delay)))
    || (q.began.Some? && q.late && q.delay < WAIT_FOREVER && Over(k, t, -ETIMEDOUT))
    || (q.began.Some? && q.cancelled && Over(k, t, -ECANCELED))
  }

  predicate Agrees(s: P.System, h: History, t: TaskId) {
    var pc := P.PcOf(s, t);
    P.Acquiring(pc, if pc.Idle? then 0 else pc.f) ==>
      t in h && Matches(pc, h[t]) && (pc.Waited? ==> Progress(s.k, t, h[t]))
  }

  /** Whatever happens meanwhile, a thread that waits is further with its wait or as far as it was. */
  lemma WaitProgress(s: P.System, h: History, a: Action, t: TaskId)
    requires P.Inv(s) && Enabled(s, a) && Asserted(s, a) && t in s.threads && s.threads[t].pc.Waited?
    requires t in h && Progress(s.k, t, h[t]) && t in Note(h, s, a)
    requires var q := Note(h, s, a)[t]; h[t] == q.(late := h[t].late, cancelled := h[t].cancelled) && (h[t].late ==> q.late)
    requires Note(h, s, a)[t].cancelled == (h[t].cancelled || (a.Service? && a.call == Resume(t)))
    requires Switches(s, a) && Late(h[t], s.k.Now()) ==> Note(h, s, a)[t].late
    ensures var r := Apply(s, a).0.k; r.Look(t).None? || Progress(r, t, Note(h, s, a)[t])
  {
    hide K.Kernel.Look, P.Inv, Enabled, Asserted, Apply, Note, Waiting, Over, Switches;
    var q := h[t];
    if q.began.Some? && Waiting(s.k, t, EndOf(q.began.value, q.delay)) {
      StepWait(s, a, t, EndOf(q.began.value, q.delay));
    } else if Over(s.k, t, 0) {
      StepOver(s, a, t, 0);
    } else if q.began.Some? && q.late && q.delay < WAIT_FOREVER && Over(s.k, t, -ETIMEDOUT) {
      StepOver(s, a, t, -ETIMEDOUT);
    } else {
      StepOver(s, a, t, -ECANCELED);
    }
  }

  /** The thread that takes the step, if one does. */
  function Actor(s: P.System, a: Action): Option<TaskId> {
    if a.Tick? || a.Switch? || a.Poke? || a.Lock? || a.c !in s.k.current then None else Some(s.k.current[a.c])
  }

  /** A step moves only its own thread. */
  lemma OthersStay(s: P.System, a: Action, t: TaskId)
    requires Enabled(s, a) && Asserted(s, a) && (a.Service? || Actor(s, a) != Some(t))
    ensures P.PcOf(Apply(s, a).0, t) == P.PcOf(s, t) || P.PcOf(Apply(s, a).0, t).Idle?
  {
    hide K.Kernel.Look, Sane, K.Wait, K.Wake, K.Switch, K.Tick, P.Forlorn, Names, OwnerLive;
  }

  /** ... and a request remembers only what happens to it. */
  lemma OthersNoted(h: History, s: P.System, a: Action, t: TaskId)
    requires t in h && (a.Service? || Actor(s, a) != Some(t))
    ensures t in Note(h, s, a)
    ensures var q := Note(h, s, a)[t];
            && h[t] == q.(late := h[t].late, cancelled := h[t].cancelled)
            && q.late == (h[t].late || (Switches(s, a) && Late(h[t], s.k.Now())))
            && q.cancelled == (h[t].cancelled || (a.Service? && a.call == Resume(t)))
  {
    hide Late;
  }

  lemma Lives(s: P.System, t: TaskId)
    requires P.Inv(s)
    ensures !P.PcOf(s, t).Idle? ==> s.k.Look(t).Some?
  {
    hide K.Kernel.Look, MutexesOk;
    P.Alive(s, t);
  }

  lemma OthersAgree(s: P.System, h: History, a: Action, t: TaskId)
    requires P.Inv(s) && Enabled(s, a) && Asserted(s, a) && Agrees(s, h, t) && (a.Service? || Actor(s, a) != Some(t))
    ensures Agrees(Apply(s, a).0, Note(h, s, a), t)
  {
    hide K.Kernel.Look, P.Inv, Enabled, Asserted, Apply, Note, Progress, Switches, Late;
    OthersStay(s, a, t);
    ApplyKeeps(s, a);
    Lives(Apply(s, a).0, t);
    if t in h {
      OthersNoted(h, s, a, t);
      if t in s.threads && s.threads[t].pc.Waited? && Progress(s.k, t, h[t]) {
        WaitProgress(s, h, a, t);
      }
    }
  }

  /** A wait of the thread itself: it blocks with its timeout, or returns 0. */
  lemma AskedProgress(s: P.System, c: CoreId)
    requires P.Inv(s) && Enabled(s, SvcWait(c)) && Asserted(s, SvcWait(c))
    ensures var t, pc, r := s.k.current[c], PcAt(s, c), P.SvcWait(s, c).k;
            && pc.f in s.k.futexes
            && (if ShouldBlock(s.k.futexes[pc.f], pc.expected)
                then StartsWait(s, SvcWait(c), c, pc.delay) && Waiting(r, t, EndOf(s.k.Now(), pc.delay)) && WaitsFor(r, pc.f, t)
                else Over(r, t, 0) && !WaitsFor(r, pc.f, t))
  {
    hide K.Kernel.Look, MutexesOk, Placed, Sane, P.Inv, P.PcOk, K.Wait, ShouldBlock, Lent, BlockLook;
    var pc := PcAt(s, c);
    P.Running(s, c);
    P.WaitCallable(s, c);
    if ShouldBlock(s.k.futexes[pc.f], pc.expected) {
      Starts(s, SvcWait(c), c, pc.delay);
      WaitStep(s.k, c, pc.f, pc.expected, pc.delay);
      BlockedThere(s.k, c, pc.f, pc.delay);
    } else {
      WaitReadyStep(s.k, c, pc.f, pc.expected, pc.delay);
    }
  }

  lemma BlockedThere(k: K.Kernel, c: CoreId, f: FutexId, delay: nat)
    requires Calls(k, c) && f in k.futexes && k.Look(k.current[c]).Some?
    ensures var w := WaitLook(k, c, f, delay, k.current[c]); w.Some? && w.value.link == Some(Q.WaitersOf(f))
  {
    hide K.Kernel.Look, Sane, Lent, OwnerOf;
  }

  lemma SelfAgrees(s: P.System, h: History, a: Action, t: TaskId)
    requires P.Inv(s) && Enabled(s, a) && Asserted(s, a) && Agrees(s, h, t) && !a.Service? && Actor(s, a) == Some(t)
    ensures Agrees(Apply(s, a).0, Note(h, s, a), t)
  {
    hide K.Kernel.Look, MutexesOk, Placed, Sane, P.Inv, P.PcOk, K.Wait, K.Wake, Progress, Over, Waiting, Names, OwnerLive, P.Forlorn;
    match a
    case SvcWait(c) =>
      AskedProgress(s, c);
      Progresses(P.SvcWait(s, c).k, t, Note(h, s, a)[t]);
    case _ =>
  }

  lemma Progresses(k: K.Kernel, t: TaskId, q: Request)
    ensures Over(k, t, 0) || (q.began.Some? && Waiting(k, t, EndOf(q.began.value, q.delay))) ==> Progress(k, t, q)
  {
    hide K.Kernel.Look;
  }

  lemma {:induction false} AgreesOnRun(s: P.System, h: History, steps: seq<Action>, s': P.System, h': History, t: TaskId)
    requires P.Inv(s) && Agrees(s, h, t) && LeadsNoting(s, h, steps, s', h')
    ensures P.Inv(s') && Agrees(s', h', t)
    decreases |steps|
  {
    hide P.Inv, Enabled, Asserted, Apply, Note, Agrees;
    if steps != [] {
      var a := steps[0];
      ApplyKeeps(s, a);
      if a.Service? || Actor(s, a) != Some(t) {
        OthersAgree(s, h, a, t);
      } else {
        SelfAgrees(s, h, a, t);
      }
      AgreesOnRun(Apply(s, a).0, Note(h, s, a), steps[1..], s', h', t);
    }
  }

  // ----- the answers

  /** The thread on core `c` has a request. */
  predicate HasRequest(s: P.System, h: History, c: CoreId) {
    Runs(s, c) && s.k.current[c] in h && h[s.k.current[c]].f in s.k.futexes
  }

  /** A held mutex is refused unless it is recursive; any other is tried for. */
  predicate RightEntry(s: P.System, a: Action, status: Option<P.Status>)
    requires a.Acquire? && Runs(s, a.c)
  {
    status == if !Names(s.k, a.f, s.k.current[a.c]) then None
              else Some(if a.f in s.recursive then P.Ok else P.ErrorParameter)
  }

  /** A free mutex is taken; a taken one is given up on at once if the timeout says so, and then there was no wait. */
  predicate RightTry(s: P.System, q: Request, status: Option<P.Status>)
    requires q.f in s.k.futexes
  {
    && status == (if s.k.futexes[q.f].value == 0 then Some(P.Ok) else if q.rtos && q.delay == 0 then Some(P.ErrorResource) else None)
    && (q.rtos && q.delay == 0 ==> q.began.None?)
  }

  /**
   The thread waits for the mutex it wants, with its timeout, which runs out `delay` ticks from now if it is not for
   ever; and it does so exactly if the word is still the one it has seen, flagged or not.
   */
  predicate RightWait(s: P.System, q: Request, a: Action, r: K.Kernel)
    requires q.f in s.k.futexes && a.SvcWait? && Runs(s, a.c)
  {
    var t, word := s.k.current[a.c], s.k.futexes[q.f].value;
    && !(q.rtos && q.delay == 0)
    && (WaitsFor(r, q.f, t) <==> word == q.seen || word == SetContended(q.seen))
    && (WaitsFor(r, q.f, t) ==>
          StartsWait(s, a, a.c, q.delay)
          && Waiting(r, t, if q.delay < WAIT_FOREVER then Some(Tm.Deadline(s.k.Now(), q.delay)) else None))
  }

  /** Only a wait that has timed out or has been cancelled ends the call, with a timeout error. */
  predicate RightReturn(s: P.System, q: Request, result: int, status: Option<P.Status>) {
    if status.None? then result == 0
    else
      && status == Some(P.ErrorTimeout) && q.began.Some?
      && ((result == -ETIMEDOUT && q.late && q.delay < WAIT_FOREVER) || (result == -ECANCELED && q.cancelled))
  }

  /** What each step of acquire must answer to the request that is pending. */
  ghost predicate RightAnswer(s: P.System, h: History, a: Action)
    requires Enabled(s, a) && Asserted(s, a) && (IsAcquire(a) || a.SvcWait?)
  {
    var (s', status) := Apply(s, a);
    if a.Acquire? then RightEntry(s, a, status)
    else
      HasRequest(s, h, a.c) && var q := h[s.k.current[a.c]];
      match a
      case Swap(_) => RightTry(s, q, status)
      case SvcWait(_) => RightWait(s, q, a, s'.k)
      case Returned(_) => RightReturn(s, q, s.k.tasks[s.k.current[a.c]].result, status)
      case Test(_) => status == if Names(s.k, q.f, s.k.current[a.c]) then Some(P.Ok) else None
      case _ => false
  }

  lemma AnswersRight(s: P.System, h: History, a: Action)
    requires P.Inv(s) && Enabled(s, a) && Asserted(s, a) && (IsAcquire(a) || a.SvcWait?) && Agrees(s, h, s.k.current[a.c])
    ensures RightAnswer(s, h, a)
  {
    hide K.Kernel.Look, MutexesOk, Placed, Sane, P.Inv, P.PcOk, K.Wait, P.Forlorn, WaitsFor;
    var t := s.k.current[a.c];
    P.Running(s, a.c);
    match a
    case SvcWait(c) =>
      AskedProgress(s, c);
      P.WaitCallable(s, c);
    case Returned(c) =>
      Seen(s.k, t);
      Finished(s.k, t, h[t]);
      TestedWord(s, t);
    case Test(c) => TestedWord(s, t);
    case _ =>
  }

  lemma TestedWord(s: P.System, t: TaskId)
    requires P.Inv(s) && !P.PcOf(s, t).Idle?
    ensures P.PcOf(s, t).f in s.k.futexes
  {
    hide K.Kernel.Look, MutexesOk;
    P.Alive(s, t);
  }

  /** A task that runs is not waiting any more. */
  lemma Finished(k: K.Kernel, t: TaskId, q: Request)
    requires Progress(k, t, q) && t in k.tasks && k.Look(t).Some? && !Exposed(k.Look(t).value)
    ensures var x := k.Look(t).value.task.result;
            || x == 0 || (q.began.Some? && q.late && q.delay < WAIT_FOREVER && x == -ETIMEDOUT)
            || (q.began.Some? && q.cancelled && x == -ECANCELED)
  {
    hide K.Kernel.Look;
  }

  /**
   After every run, whatever step of an acquire comes next: it answers the call that is pending. Every wait is for the
   mutex and with the timeout of that call; a zero timeout of the RTOS layer never waits; a timeout error comes only
   after a wait that a switch has found timed out or that somebody has cancelled.
   */
  lemma AcquireAnswers(s0: P.System, steps: seq<Action>, s: P.System, h: History, a: Action)
    requires Start(s0) && LeadsNoting(s0, map[], steps, s, h)
    requires Enabled(s, a) && Asserted(s, a) && (IsAcquire(a) || a.SvcWait?)
    ensures RightAnswer(s, h, a)
  {
    hide P.Inv, LeadsNoting, RightAnswer, Placed, Matches, Progress;
    StartInv(s0);
    var t := s.k.current[a.c];
    AgreesOnRun(s0, map[], steps, s, h, t);
    AnswersRight(s, h, a);
  }
}
