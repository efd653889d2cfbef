/** Whole runs of the mutex protocol, on any number of cores, tasks and mutexes. */
module MutexRuns {
  import opened Types
  import opened K = Kernel
  import opened Steps
  import opened Placement
  import opened Calmness
  import opened MutexKernel
  import P = MutexProtocol
  import Q = TaskQueues
  import Ow = OwnedFutexes

  /** The service calls of a thread that is not inside acquire or release. */
  datatype Call =
    | Suspend(task: TaskId, delay: nat)
    | Resume(task: TaskId)
    | WaitOn(futex: FutexId, expected: int, delay: nat)
    | WakeUp(futex: FutexId, all: bool)
    | Create(task: TaskId, prio: nat, affinity: Option<CoreId>, daemon: bool, suspended: bool)
    | Terminate(task: TaskId)
    | SetPriority(task: TaskId, prio: nat)

  /** One atomic step: of the thread that runs on core `c`, or of an interrupt. */
  datatype Action =
    | Acquire(c: CoreId, f: FutexId, delay: nat, rtos: bool)
    | Swap(c: CoreId)
    | SvcWait(c: CoreId)
    | Returned(c: CoreId)
    | Test(c: CoreId)
    | Release(c: CoreId, f: FutexId)
    | ReadWord(c: CoreId)
    | SwapOut(c: CoreId)
    | SvcWake(c: CoreId)
    | Service(c: CoreId, call: Call)
    | Tick(core: CoreId, sliced: bool)
    | Switch(core: CoreId, wakes: seq<(FutexId, bool)>, corrupt: set<TaskId>, started: bool)
    | Poke(f: FutexId, v: int)
    | Lock(depth: int)

  /** `c` runs a thread that is at a place `at` of the algorithm. */
  predicate Runs(s: P.System, c: CoreId) {
    c in s.k.current && s.k.current[c] in s.threads
  }

  function PcAt(s: P.System, c: CoreId): P.Pc
    requires Runs(s, c)
  {
    s.threads[s.k.current[c]].pc
  }

  predicate IsPlain(k: K.Kernel, f: FutexId) {
    f in k.futexes && k.futexes[f].kind.Plain?
  }

  /**
   What the callers of the service calls have to respect. Only the caller itself is ever suspended with a timeout.
   A thread that is terminated holds no mutex, though words that it has released may still name it; the address of a
   dead thread is not used again while a mutex is linked to it.
   */
  ghost predicate CallEnabled(s: P.System, c: CoreId, call: Call) {
    match call
    case Suspend(t, delay) =>
      Runs(s, c) && (t == s.k.current[c] || (s.k.cores == 1 && delay >= WAIT_FOREVER))
    case WaitOn(f, _, _) => IsPlain(s.k, f)
    case WakeUp(f, _) => IsPlain(s.k, f)
    case Create(t, _, _, _, _) => t !in s.k.tasks && s.k.owned.List(t) == []
    case Terminate(t) => Runs(s, c) && (t == s.k.current[c] || s.k.cores == 1) && P.MayGo(s, t)
    case _ => true
  }

  ghost predicate Enabled(s: P.System, a: Action) {
    match a
    case Acquire(c, f, _, _) => Runs(s, c) && PcAt(s, c).Idle? && IsMutex(s.k, f)
    case Swap(c) => Runs(s, c) && PcAt(s, c).TryLock?
    case SvcWait(c) => Runs(s, c) && PcAt(s, c).CallWait?
    case Returned(c) => Runs(s, c) && PcAt(s, c).Waited?
    case Test(c) => Runs(s, c) && PcAt(s, c).TestWord?
    case Release(c, f) =>
      && Runs(s, c) && PcAt(s, c).Idle? && IsMutex(s.k, f)
      && (Names(s.k, f, s.k.current[c]) ==> f in s.threads[s.k.current[c]].held)
    case ReadWord(c) => Runs(s, c) && PcAt(s, c).TryUnlock?
    case SwapOut(c) => Runs(s, c) && PcAt(s, c).SwapBack?
    case SvcWake(c) => Runs(s, c) && PcAt(s, c).CallWake?
    case Service(c, call) => Runs(s, c) && PcAt(s, c).Idle? && CallEnabled(s, c, call)
    case Tick(_, _) => true
    case Switch(c, wakes, corrupt, _) =>
      c < s.k.cores && PlainOnly(s.k, wakes) && forall t :: t in corrupt ==> P.MayGo(s, t)
    case Poke(f, _) => IsPlain(s.k, f)
    case Lock(_) => true
  }

  /** What the kernel asserts of a call, and the memory that a step reads. */
  ghost predicate Asserted(s: P.System, a: Action) {
    match a
    case Swap(c) => Runs(s, c) && PcAt(s, c).TryLock? && PcAt(s, c).f in s.k.futexes
    case SvcWait(c) =>
      && Calls(s.k, c) && Runs(s, c) && PcAt(s, c).CallWait? && PcAt(s, c).f in s.k.futexes
      && !P.Forlorn(s.k, PcAt(s, c).f, PcAt(s, c).expected)
    case Returned(c) => Runs(s, c) && s.k.current[c] in s.k.tasks
    case ReadWord(c) => Runs(s, c) && PcAt(s, c).TryUnlock? && PcAt(s, c).f in s.k.futexes
    case SwapOut(c) => Runs(s, c) && PcAt(s, c).SwapBack? && PcAt(s, c).f in s.k.futexes
    case SvcWake(c) =>
      && Calls(s.k, c) && Runs(s, c) && PcAt(s, c).CallWake? && PcAt(s, c).f in s.k.futexes
      && OwnerLive(s.k, s.k.futexes[PcAt(s, c).f].value)
    case Service(c, _) => Calls(s.k, c)
    case Switch(c, _, _, _) => Sane(s.k) && (c in s.k.current ==> Calls(s.k, c))
    case _ => true
  }

  ghost function Serve(s: P.System, c: CoreId, call: Call): P.System
    requires Calls(s.k, c) && CallEnabled(s, c, call)
  {
    P.Follow(s,
      match call
      case Suspend(t, delay) => K.Suspend(s.k, c, t, delay).0
      case Resume(t) => K.Resume(s.k, c, t).0
      case WaitOn(f, expected, delay) => K.Wait(s.k, c, f, expected, delay)
      case WakeUp(f, all) => K.Wake(s.k, c, f, all).0
      case Create(t, prio, affinity, daemon, suspended) => K.Create(s.k, c, t, prio, affinity, daemon, suspended)
      case Terminate(t) => K.Terminate(s.k, c, t).0
      case SetPriority(t, p) => K.SetPriority(s.k, c, t, p).0)
  }

  /** The next state, and what acquire or release returns if the step is its last. */
  ghost function Apply(s: P.System, a: Action): (P.System, Option<P.Status>)
    requires Enabled(s, a) && Asserted(s, a)
  {
    match a
    case Acquire(c, f, delay, rtos) => P.Acquire(s, s.k.current[c], f, delay, rtos)
    case Swap(c) => P.Swap(s, s.k.current[c])
    case SvcWait(c) => (P.SvcWait(s, c), None)
    case Returned(c) => P.Returned(s, s.k.current[c])
    case Test(c) => P.Test(s, s.k.current[c])
    case Release(c, f) => P.Release(s, s.k.current[c], f)
    case ReadWord(c) => (P.ReadWord(s, s.k.current[c]), None)
    case SwapOut(c) => P.SwapOut(s, s.k.current[c])
    case SvcWake(c) => P.SvcWake(s, c)
    case Service(c, call) => (Serve(s, c, call), None)
    case Tick(c, sliced) => (P.Follow(s, K.Tick(s.k, c, sliced)), None)
    case Switch(c, wakes, corrupt, started) => (P.Follow(s, K.Switch(s.k, c, wakes, corrupt, started).0), None)
    case Poke(f, v) => (P.Follow(s, SetWord(s.k, f, v)), None)
    case Lock(n) => (P.Follow(s, s.k.(locked := n)), None)
  }

  /** The thread on core `c` is about to wait for a mutex whose word names a dead thread that would have to inherit. */
  predicate WaitsForDead(s: P.System, a: Action) {
    a.SvcWait? && Runs(s, a.c) && PcAt(s, a.c).CallWait? && P.Forlorn(s.k, PcAt(s, a.c).f, PcAt(s, a.c).expected)
  }

  /**
   An assertion of the kernel fails exactly when a thread waits for a mutex with priority inheritance whose word
   names a dead thread; and then the last release of that mutex found nobody waiting.
   */
  lemma FailsExactly(s: P.System, a: Action)
    requires P.Inv(s) && Enabled(s, a)
    ensures Asserted(s, a) <==> !WaitsForDead(s, a)
    ensures WaitsForDead(s, a) ==> PcAt(s, a.c).f in s.stale
  {
    hide K.Kernel.Look, MutexesOk, Placed, Sane, P.Inv, Calls;
    match a
    case Swap(c) => P.SwapKeeps(s, c);
    case SvcWait(c) =>
      P.WaitCallable(s, c);
      if WaitsForDead(s, a) { DeadIsStale(s, PcAt(s, c).f); }
    case Returned(c) => P.ReturnedKeeps(s, c);
    case ReadWord(c) => P.ReadWordKeeps(s, c);
    case SwapOut(c) => P.SwapOutKeeps(s, c);
    case SvcWake(c) => P.SvcWakeKeeps(s, c);
    case Service(c, _) => P.Running(s, c);
    case Switch(c, wakes, corrupt, started) => P.SwitchKeeps(s, c, wakes, corrupt, started);
    case _ =>
  }

  /** A word that names a dead thread was last released to nobody. */
  lemma DeadIsStale(s: P.System, f: FutexId)
    requires P.Inv(s) && IsMutex(s.k, f) && s.k.futexes[f].value != 0 && !OwnerLive(s.k, s.k.futexes[f].value)
    ensures f in s.stale
  {
    hide K.Kernel.Look, Placed, Sane;
    assert WordOk(s.k, f);
    var t: TaskId := OwnerOf(s.k.futexes[f].value);
    Seen(s.k, t);
    P.Alive(s, t);
    P.Holds(s, t, f);
  }

  lemma ServeKeeps(s: P.System, c: CoreId, call: Call)
    requires P.Inv(s) && Runs(s, c) && PcAt(s, c).Idle? && CallEnabled(s, c, call)
    ensures Calls(s.k, c) && P.Inv(Serve(s, c, call))
  {
    hide K.Kernel.Look, MutexesOk, Placed, Sane, P.Inv, Calls;
    P.Running(s, c);
    match call
    case Suspend(t, delay) => P.SuspendKeeps(s, c, t, delay);
    case Resume(t) => P.ResumeKeeps(s, c, t);
    case WaitOn(f, expected, delay) => P.WaitPlainKeeps(s, c, f, expected, delay);
    case WakeUp(f, all) => P.WakePlainKeeps(s, c, f, all);
    case Create(t, prio, affinity, daemon, suspended) => P.CreateKeeps(s, c, t, prio, affinity, daemon, suspended);
    case Terminate(t) => P.TerminateKeeps(s, c, t);
    case SetPriority(t, p) => P.SetPriorityKeeps(s, c, t, p);
  }

  lemma ApplyKeeps(s: P.System, a: Action)
    requires P.Inv(s) && Enabled(s, a) && Asserted(s, a)
    ensures P.Inv(Apply(s, a).0)
  {
    hide K.Kernel.Look, MutexesOk, Placed, Sane, P.Inv, Calls;
    match a
    case Acquire(c, f, delay, rtos) => P.AcquireKeeps(s, c, f, delay, rtos);
    case Swap(c) => P.SwapKeeps(s, c);
    case SvcWait(c) => P.SvcWaitKeeps(s, c);
    case Returned(c) => P.ReturnedKeeps(s, c);
    case Test(c) => P.TestKeeps(s, c);
    case Release(c, f) => P.ReleaseKeeps(s, c, f);
    case ReadWord(c) => P.ReadWordKeeps(s, c);
    case SwapOut(c) => P.SwapOutKeeps(s, c);
    case SvcWake(c) => P.SvcWakeKeeps(s, c);
    case Service(c, call) => ServeKeeps(s, c, call);
    case Tick(c, sliced) => P.TickKeeps(s, c, sliced);
    case Switch(c, wakes, corrupt, started) => P.SwitchKeeps(s, c, wakes, corrupt, started);
    case Poke(f, v) => P.PokeKeeps(s, f, v);
    case Lock(n) => P.LockKeeps(s, n);
  }

  // ----- the steps that are about no mutex

  predicate LeavesMutexes(a: Action) {
    a.Service? || a.Tick? || a.Switch? || a.Poke? || a.Lock?
  }

  /** Only an excused step brings a thread into being. */
  lemma NobodyBorn(k: K.Kernel, k': K.Kernel, x: set<TaskId>, y: set<TaskId>)
    requires Calm(k, k', x, y)
    ensures forall t :: t !in x && k.Look(t).None? ==> k'.Look(t).None?
  {
    hide K.Kernel.Look;
    forall t | t !in x && k.Look(t).None? ensures k'.Look(t).None? {
      assert CalmFace(k, k.Look(t), k'.Look(t), t in x, t in y);
    }
  }

  lemma ServeCalm(s: P.System, c: CoreId, call: Call) returns (x: set<TaskId>, y: set<TaskId>)
    requires P.Inv(s) && Runs(s, c) && PcAt(s, c).Idle? && CallEnabled(s, c, call)
    ensures Calls(s.k, c) && Placed(Serve(s, c, call).k) && Calm(s.k, Serve(s, c, call).k, x, y)
    ensures !call.SetPriority? ==> y == {}
  {
    hide K.Kernel.Look, MutexesOk, Placed, Sane, P.Inv, Calm, Woken, Lent, ShouldBlock, Rouse, P.MayGo;
    P.Running(s, c);
    P.CallerReadySane(s);
    var k := s.k;
    x, y := {}, {};
    match call
    case Suspend(t, delay) =>
      x := if delay < WAIT_FOREVER then {t, k.current[c]} else {k.current[c]};
      SuspendPlaced(k, c, t, delay);
      SuspendCalm(k, c, t, delay);
    case Resume(t) =>
      ResumePlaced(k, c, t);
      ResumeCalm(k, c, t);
    case WaitOn(f, expected, delay) =>
      x := {k.current[c]};
      WaitPlaced(k, c, f, expected, delay);
      WaitCalm(k, c, f, expected, delay);
    case WakeUp(f, all) =>
      WakePlaced(k, c, f, all);
      WakeCalm(k, c, f, all);
    case Create(t, prio, affinity, daemon, suspended) =>
      x := {t};
      CreatePlaced(k, c, t, prio, affinity, daemon, suspended);
      CreateCalm(k, c, t, prio, affinity, daemon, suspended);
    case Terminate(t) =>
      TerminatePlaced(k, c, t);
      TerminateCalm(k, c, t);
    case SetPriority(t, p) =>
      y := {t};
      SetPriorityPlaced(k, c, t, p);
      SetPriorityCalm(k, c, t, p);
  }

  /** Nobody comes or goes but by being created or terminated. */
  lemma ServeLives(s: P.System, c: CoreId, call: Call)
    requires P.Inv(s) && Runs(s, c) && PcAt(s, c).Idle? && CallEnabled(s, c, call)
    ensures Calls(s.k, c)
    ensures forall t :: s.k.Look(t).Some? && Serve(s, c, call).k.Look(t).None? ==> call == Terminate(t)
    ensures forall t :: s.k.Look(t).None? && Serve(s, c, call).k.Look(t).Some? ==> call.Create? && call.task == t
  {
    hide K.Kernel.Look, MutexesOk, Placed, Sane, P.Inv, Woken, Lent, ShouldBlock, Rouse, P.MayGo;
    P.Running(s, c);
    P.CallerReadySane(s);
    var k := s.k;
    match call
    case Suspend(t, delay) =>
      Seen(k, t);
      if t in k.tasks { SuspendStep(k, c, t, delay); } else { NoSuchTask(k, c, t); }
    case Resume(t) =>
      Seen(k, t);
      PendingStep(k, c);
      if t in k.tasks && (k.tasks[t].state.Blocked? || k.tasks[t].state.Suspended?) { ResumeStep(k, c, t); }
    case WaitOn(f, expected, delay) =>
      if ShouldBlock(k.futexes[f], expected) {
        WaitStep(k, c, f, expected, delay);
      } else {
        WaitReadyStep(k, c, f, expected, delay);
      }
    case WakeUp(f, all) =>
      WakePlain(k, f, all);
      WakeLoopStep(k, f, all);
      PendingStep(WakeLoop(k, f, all), c);
    case Create(t, prio, affinity, daemon, suspended) =>
      CreateStep(k, c, t, prio, affinity, daemon, suspended);
      Seen(k, t);
    case Terminate(t) =>
      if t in k.tasks { TerminateStep(k, c, t); } else { NoSuchTask(k, c, t); }
    case SetPriority(t, p) =>
      Seen(k, t);
      if t in k.tasks { SetPriorityStep(k, c, t, p); } else { NoSuchTask(k, c, t); }
  }

  /** The thread that a terminate or an eviction is about. */
  predicate Dismisses(a: Action, t: TaskId) {
    (a.Service? && a.call == Terminate(t)) || (a.Switch? && t in a.corrupt)
  }

  predicate Creates(a: Action, t: TaskId) {
    a.Service? && a.call.Create? && a.call.task == t
  }

  /** Mutex words, owners and priorities are left alone; nobody disappears but who is dismissed, and no dead owner returns. */
  lemma LeavesThemCalm(s: P.System, a: Action) returns (x: set<TaskId>, y: set<TaskId>)
    requires P.Inv(s) && Enabled(s, a) && Asserted(s, a) && LeavesMutexes(a) && !a.Poke?
    ensures var s' := Apply(s, a).0;
            && s' == P.Follow(s, s'.k) && Placed(s'.k) && Calm(s.k, s'.k, x, y)
            && (forall t :: s.k.Look(t).Some? && s'.k.Look(t).None? ==> Dismisses(a, t))
            && (forall t :: s.k.Look(t).None? && s'.k.Look(t).Some? ==> Creates(a, t) && s.k.owned.List(t) == [])
            && (!(a.Service? && a.call.SetPriority?) ==> y == {})
  {
    hide K.Kernel.Look, MutexesOk, Placed, Sane, P.Inv, Calm, K.Tick, K.Switch;
    P.CallerReadySane(s);
    x, y := {}, {};
    match a
    case Service(c, call) =>
      x, y := ServeCalm(s, c, call);
      ServeLives(s, c, call);
    case Tick(c, sliced) =>
      TickPlaced(s.k, c, sliced);
      TickCalm(s.k, c, sliced);
      TickStep(s.k, c, sliced);
    case Switch(c, wakes, corrupt, started) =>
      SwitchPlaced(s.k, c, wakes, corrupt, started);
      SwitchCalm(s.k, c, wakes, corrupt, started);
      SwitchAlive(s.k, c, wakes, corrupt, started);
      NobodyBorn(s.k, Apply(s, a).0.k, {}, {});
    case Lock(n) =>
      Unmoved(s.k, s.k.(locked := n));
      SameLooks(s.k, s.k.(locked := n));
      CalmSame(s.k, s.k.(locked := n));
  }

  // ----- truthful status

  /** The mutex that the thread on core `c` is acquiring or releasing. */
  function Pending(s: P.System, c: CoreId): FutexId {
    if Runs(s, c) && !PcAt(s, c).Idle? then PcAt(s, c).f else 0
  }

  function HeldBy(s: P.System, t: TaskId): multiset<FutexId> {
    if t in s.threads then s.threads[t].held else multiset{}
  }

  predicate IsAcquire(a: Action) {
    a.Acquire? || a.Swap? || a.Returned? || a.Test?
  }

  predicate IsRelease(a: Action) {
    a.Release? || a.SwapOut? || a.SvcWake?
  }

  /**
   Acquire returns Ok exactly when the caller has become a holder, and an error only while the mutex is not
   its own: a timeout that races with the hand-off never wins. The one exception is the re-acquiring of a
   mutex that is not recursive.
   */
  ghost predicate TruthfulAcquire(s: P.System, a: Action)
    requires Enabled(s, a) && Asserted(s, a) && IsAcquire(a)
  {
    var (s', status) := Apply(s, a); var t := s.k.current[a.c]; var f := if a.Acquire? then a.f else Pending(s, a.c);
    && (status == Some(P.Ok) <==> HeldBy(s', t) != HeldBy(s, t))
    && (status == Some(P.Ok) ==> HeldBy(s', t) == HeldBy(s, t) + multiset{f} && Names(s'.k, f, t))
    && (status.Some? && status.value != P.Ok ==>
          (Names(s'.k, f, t) <==> status == Some(P.ErrorParameter)) && status != Some(P.Error))
    && (status == Some(P.ErrorParameter) ==> f !in s.recursive)
  }

  /** Release gives up one hold when it returns Ok, and otherwise nothing; it refuses only who holds nothing. */
  ghost predicate TruthfulRelease(s: P.System, a: Action)
    requires Enabled(s, a) && Asserted(s, a) && IsRelease(a)
  {
    var (s', status) := Apply(s, a); var t := s.k.current[a.c]; var f := if a.Release? then a.f else Pending(s, a.c);
    && (status == Some(P.Ok) ==> f in HeldBy(s, t) && HeldBy(s', t) == HeldBy(s, t) - multiset{f})
    && (status != Some(P.Ok) ==> HeldBy(s', t) == HeldBy(s, t))
    && (status == Some(P.ErrorResource) ==> f !in HeldBy(s, t))
    && (status.Some? ==> status.value == P.Ok || status.value == P.ErrorResource)
  }

  lemma OneMoreHold(held: multiset<FutexId>, f: FutexId)
    ensures held + multiset{f} != held
  {
    assert (held + multiset{f})[f] == held[f] + 1;
  }

  lemma SwapIsTruthful(s: P.System, a: Action)
    requires P.Inv(s) && Enabled(s, a) && Asserted(s, a) && a.Swap?
    ensures TruthfulAcquire(s, a)
  {
    hide K.Kernel.Look, MutexesOk, Placed, Sane, P.Inv, Calls, P.PcOk, OwnerOf;
    ApplyKeeps(s, a);
    P.SwapKeeps(s, a.c);
    P.Holds(Apply(s, a).0, s.k.current[a.c], Pending(s, a.c));
    OneMoreHold(HeldBy(s, s.k.current[a.c]), Pending(s, a.c));
  }

  lemma AcquireIsTruthful(s: P.System, a: Action)
    requires P.Inv(s) && Enabled(s, a) && Asserted(s, a) && IsAcquire(a)
    ensures TruthfulAcquire(s, a)
  {
    hide K.Kernel.Look, MutexesOk, Placed, Sane, P.Inv, Calls, P.PcOk, OwnerOf;
    P.Running(s, a.c);
    OneMoreHold(HeldBy(s, s.k.current[a.c]), if a.Acquire? then a.f else Pending(s, a.c));
    match a
    case Acquire(c, f, delay, rtos) => P.AcquireKeeps(s, c, f, delay, rtos);
    case Swap(c) => SwapIsTruthful(s, a);
    case Returned(c) => P.ReturnedKeeps(s, c);
    case Test(c) => P.TestKeeps(s, c);
  }

  lemma ReleaseIsTruthful(s: P.System, a: Action)
    requires P.Inv(s) && Enabled(s, a) && Asserted(s, a) && IsRelease(a)
    ensures TruthfulRelease(s, a)
  {
    hide K.Kernel.Look, MutexesOk, Placed, Sane, P.Inv, Calls, P.PcOk, P.Release, P.SwapOut, P.SvcWake;
    match a
    case Release(c, f) => P.ReleaseKeeps(s, c, f);
    case SwapOut(c) => P.SwapOutKeeps(s, c);
    case SvcWake(c) => P.SvcWakeKeeps(s, c);
  }

  // ----- runs

  /** All mutexes are free, nobody holds or waits for one, and everybody runs at his base priority. */
  ghost predicate Start(s: P.System) {
    && Placed(s.k)
    && s.k.owned.link == map[]
    && (forall f :: IsMutex(s.k, f) ==> s.k.futexes[f].value == 0 && s.k.Waiters(f) == [] && s.Count(f) == 0)
    && s.stale == {}
    && (forall t :: t in s.threads <==> t in s.k.tasks)
    && (forall t :: t in s.threads ==> s.threads[t] == P.Thread(P.Idle, multiset{}) && s.k.Prio(t) == s.k.tasks[t].base)
  }

  /** `steps` leads from `s` to `s'`. */
  ghost predicate Leads(s: P.System, steps: seq<Action>, s': P.System)
    decreases |steps|
  {
    if steps == [] then s' == s
    else Enabled(s, steps[0]) && Asserted(s, steps[0]) && Leads(Apply(s, steps[0]).0, steps[1..], s')
  }

  lemma StartInv(s: P.System)
    requires Start(s)
    ensures P.Inv(s)
  {
    hide K.Kernel.Look, Sane, Placed;
    PlacedSane(s.k);
    forall f ensures WordOk(s.k, f) {}
    forall t ensures BoostOk(s.k, t) {
      Seen(s.k, t);
    }
    forall t ensures P.ThreadOk(s, t) {
      Seen(s.k, t);
      if t in s.threads && P.Queued(s.k.Look(t).value) {
        OnQueue(s.k, s.k.Look(t).value.link.value, t);
      }
    }
    forall t, f ensures P.HoldOk(s, t, f) {
      NamesNobody(s, f, t);
    }
  }

  lemma NamesNobody(s: P.System, f: FutexId, t: TaskId)
    requires IsMutex(s.k, f) ==> s.k.futexes[f].value == 0
    ensures !Names(s.k, f, t)
  {}

  /** The protocol is in order after every run. */
  lemma {:induction false} RunsKeep(s: P.System, steps: seq<Action>, s': P.System)
    requires P.Inv(s) && Leads(s, steps, s')
    ensures P.Inv(s')
    decreases |steps|
  {
    hide P.Inv, Enabled, Asserted, Apply;
    if steps != [] {
      ApplyKeeps(s, steps[0]);
      RunsKeep(Apply(s, steps[0]).0, steps[1..], s');
    }
  }

  /**
   Mutual exclusion, no stranded waiter and no permanent boost, in every state that any run reaches: one thread at
   most holds a mutex and the word names it; nobody waits for a mutex whose word is 0, while anybody waits the word is
   contended and names a thread; whom it names holds the mutex or is about to learn that it has been handed it, unless
   the last release found nobody waiting, and a dead thread is named in that last case only; and a task without a
   contended mutex that lends priority runs at its base priority.
   */
  lemma SafeOnEveryRun(s0: P.System, steps: seq<Action>, s: P.System, f: FutexId, t: TaskId, u: TaskId)
    requires Start(s0) && Leads(s0, steps, s) && IsMutex(s.k, f)
    ensures f in HeldBy(s, t) ==> Names(s.k, f, t) && (f in HeldBy(s, u) ==> t == u)
    ensures s.k.Waiters(f) != [] ==> Contended(s.k.futexes[f].value) && OwnerOf(s.k.futexes[f].value) > 0
    ensures s.k.futexes[f].value == 0 ==> s.k.Waiters(f) == []
    ensures Names(s.k, f, t) ==> (f in s.stale <==> f !in HeldBy(s, t) && !P.Inheriting(P.PcOf(s, t), f))
    ensures Names(s.k, f, t) && t !in s.k.tasks ==> f in s.stale
    ensures t in s.k.tasks && s.k.owned.List(t) == [] ==> s.k.Prio(t) == s.k.tasks[t].base
    ensures s.k.futexes[f].kind.inherits ==>
              (f in s.k.owned.link <==> Contended(s.k.futexes[f].value))
              && (f in s.k.owned.link ==> s.k.owned.link[f] == OwnerOf(s.k.futexes[f].value))
    ensures Placed(s.k)
  {
    hide K.Kernel.Look, Sane, Placed, Leads, Start;
    StartInv(s0);
    RunsKeep(s0, steps, s);
    assert P.HoldOk(s, t, f) && P.HoldOk(s, u, f) && WordOk(s.k, f) && BoostOk(s.k, t);
    NamesOne(s.k, f, t, u);
    Seen(s.k, t);
    P.Alive(s, t);
  }

  /**
   On every run, whatever step is next: the kernel has nothing to object to, but to a wait for a dead thread, and what
   acquire and release return is the truth.
   */
  lemma TruthfulOnEveryRun(s0: P.System, steps: seq<Action>, s: P.System, a: Action)
    requires Start(s0) && Leads(s0, steps, s) && Enabled(s, a)
    ensures Asserted(s, a) <==> !WaitsForDead(s, a)
    ensures WaitsForDead(s, a) ==> PcAt(s, a.c).f in s.stale
    ensures IsAcquire(a) ==> Asserted(s, a) && TruthfulAcquire(s, a)
    ensures IsRelease(a) ==> Asserted(s, a) && TruthfulRelease(s, a)
  {
    hide P.Inv, Enabled, Asserted, Apply, Start, Leads, TruthfulAcquire, TruthfulRelease;
    StartInv(s0);
    RunsKeep(s0, steps, s);
    FailsExactly(s, a);
    if IsAcquire(a) {
      AcquireIsTruthful(s, a);
    } else if IsRelease(a) {
      ReleaseIsTruthful(s, a);
    }
  }
}
