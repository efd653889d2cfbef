/** Context switches over whole runs: none is missed, and none ends the scheduler too early. */
module SwitchRuns {
  import opened Types
  import opened K = Kernel
  import opened Steps
  import opened Placement
  import opened Calmness
  import opened MutexKernel
  import opened Inheritance
  import opened Dispatching
  import opened Preemption
  import opened MutexRuns
  import P = MutexProtocol
  import Q = TaskQueues

  /** After every run: a switch that leaves the scheduler leaves only daemons behind. */
  lemma NeverEndsEarly(s0: P.System, steps: seq<Action>, s: P.System, a: Action, t: TaskId)
    requires Start(s0) && Leads(s0, steps, s) && Enabled(s, a) && Asserted(s, a) && a.Switch?
    requires K.Switch(s.k, a.core, a.wakes, a.corrupt, a.started).1.Exited?
    ensures a.started && (Apply(s, a).0.k.Look(t).Some? ==> Apply(s, a).0.k.Look(t).value.task.daemon)
  {
    hide K.Kernel.Look, MutexesOk, Placed, Sane, P.Inv, Start, Leads, K.Switch;
    StartInv(s0);
    RunsKeep(s0, steps, s);
    P.CallerReadySane(s);
    SwitchEnds(s.k, a.core, a.wakes, a.corrupt, a.started);
  }

  // ----- no service call overlooks a task

  lemma ServeRequests(s: P.System, c: CoreId, call: Call)
    requires P.Inv(s) && Runs(s, c) && PcAt(s, c).Idle? && CallEnabled(s, c, call)
    ensures Calls(s.k, c) && Requested(s.k, Serve(s, c, call).k, c) && s.k.pending <= Serve(s, c, call).k.pending
    ensures var r := Serve(s, c, call).k;
            SameSetting(s.k, r) && (c in r.current ==> c in s.k.current && r.current[c] == s.k.current[c])
  {
    hide K.Kernel.Look, MutexesOk, Placed, Sane, P.Inv, P.MayGo, Outranks;
    P.Running(s, c);
    P.CallerReadySane(s);
    var k := s.k;
    match call
    case Suspend(t, delay) =>
      if t in k.tasks { SuspendRequests(k, c, t, delay); } else { NobodyThere(k, c, t, delay, 0); }
    case Resume(t) =>
      if t in k.tasks {
        ResumeRequests(k, c, t);
        ResumeCurrent(k, c, t);
      } else {
        NobodyThere(k, c, t, 0, 0);
      }
    case WaitOn(f, expected, delay) => WaitRequests(k, c, f, expected, delay);
    case WakeUp(f, all) =>
      WakeRequests(k, c, f, all);
      WakePreempts(k, c, f, all);
    case Create(t, prio, affinity, daemon, suspended) =>
      CreateRequests(k, c, t, prio, affinity, daemon, suspended);
      CreateStep(k, c, t, prio, affinity, daemon, suspended);
    case Terminate(t) =>
      if t in k.tasks {
        TerminateRequests(k, c, t);
        TerminateStep(k, c, t);
      } else {
        NobodyThere(k, c, t, 0, 0);
      }
    case SetPriority(t, p) =>
      if t in k.tasks {
        SetPriorityRequests(k, c, t, p);
        SetPriorityStep(k, c, t, p);
      } else {
        NobodyThere(k, c, t, 0, p);
      }
  }

  lemma ResumeCurrent(k: K.Kernel, c: CoreId, t: TaskId)
    requires Calls(k, c) && t in k.tasks
    ensures K.Resume(k, c, t).0.current == k.current
  {
    hide K.Kernel.Look, Sane, Rouse;
    if k.tasks[t].state.Blocked? || k.tasks[t].state.Suspended? { ResumeStep(k, c, t); }
  }

  /** The step releases a mutex that lends priority, nobody waits for it, and somebody is ready in between. */
  ghost predicate Misses(s: P.System, a: Action)
    requires Enabled(s, a) && Asserted(s, a) && a.SvcWake?
  {
    var f := PcAt(s, a.c).f;
    IsPi(s.k, f) && s.k.Waiters(f) == [] && a.c !in s.k.pending && exists u :: Overlooked(s.k, a.c, f, u)
  }

  /**
   After every run, whatever service call comes next: a task that has become ready for the caller's core and more urgent
   than the caller finds a switch of that core requested, except exactly when a release misses it.
   */
  lemma CallsPreempt(s0: P.System, steps: seq<Action>, s: P.System, a: Action)
    requires Start(s0) && Leads(s0, steps, s) && Enabled(s, a) && Asserted(s, a) && (a.Service? || a.SvcWait? || a.SvcWake?)
    ensures Requested(s.k, Apply(s, a).0.k, a.c) <==> !(a.SvcWake? && Misses(s, a))
  {
    hide K.Kernel.Look, MutexesOk, Placed, Sane, P.Inv, Start, Leads, Misses;
    StartInv(s0);
    RunsKeep(s0, steps, s);
    CallPreempts(s, a);
  }

  lemma CallPreempts(s: P.System, a: Action)
    requires P.Inv(s) && Enabled(s, a) && Asserted(s, a) && (a.Service? || a.SvcWait? || a.SvcWake?)
    ensures var r := Apply(s, a).0.k;
            && (Requested(s.k, r, a.c) <==> !(a.SvcWake? && Misses(s, a)))
            && s.k.pending <= r.pending && SameSetting(s.k, r)
            && (a.c in r.current ==> a.c in s.k.current && r.current[a.c] == s.k.current[a.c])
  {
    hide K.Kernel.Look, MutexesOk, Placed, Sane, P.Inv, P.PcOk, Outranks, Overlooked, Requested, Serve, K.Wait, K.Wake, OwnerOf;
    match a
    case Service(c, call) => ServeRequests(s, c, call);
    case SvcWait(c) =>
      P.WaitCallable(s, c);
      WaitRequests(s.k, c, PcAt(s, c).f, PcAt(s, c).expected, PcAt(s, c).delay);
    case SvcWake(c) =>
      var f := PcAt(s, c).f;
      P.CallWakeOk(s, c);
      WakeRequests(s.k, c, f, false);
      if IsPi(s.k, f) && s.k.Waiters(f) == [] {
        OverlookedExactly(s.k, c, f, false);
      } else {
        WakePreempts(s.k, c, f, false);
      }
  }

  // ----- one core

  /** Nobody ready is more urgent than what runs on core 0, unless a switch is on its way. */
  ghost predicate Prompt(k: K.Kernel) {
    forall u :: Outranks(k, 0, u) ==> 0 in k.pending
  }

  /** So does a switch that finds the scheduler locked and takes the request away from somebody who is more urgent. */
  ghost predicate Neglects(s: P.System, a: Action)
    requires Enabled(s, a) && Asserted(s, a)
  {
    || (a.SvcWake? && Misses(s, a))
    || (a.Switch? && s.k.locked < 0 && exists u :: Outranks(s.k, a.core, u))
  }

  lemma OneCore(k: K.Kernel, c: CoreId)
    requires Placed(k) && k.cores == 1 && c in k.current
    ensures c == 0
  {
    hide K.Kernel.Look, Sane;
    CallerReady(k, c);
  }

  /** The steps that are about nothing but words, counters and program counters. */
  predicate Local(a: Action) {
    !(a.Service? || a.SvcWait? || a.SvcWake? || a.Switch?)
  }

  lemma LocalLooks(s: P.System, a: Action)
    requires P.Inv(s) && Enabled(s, a) && Asserted(s, a) && Local(a)
    ensures var r := Apply(s, a).0.k;
            && r.current == s.k.current && r.cores == s.k.cores && s.k.pending <= r.pending && (!a.Tick? ==> SameSetting(s.k, r))
            && forall u :: r.Look(u) == s.k.Look(u)
  {
    hide K.Kernel.Look, MutexesOk, Placed, Sane, P.Inv, P.PcOk, K.Tick;
    match a
    case Swap(c) => SetWordStep(s.k, PcAt(s, c).f, s.k.current[c]);
    case SwapOut(c) => SetWordStep(s.k, PcAt(s, c).f, 0);
    case Poke(f, v) => SetWordStep(s.k, f, v);
    case Lock(n) => SameLooks(s.k, s.k.(locked := n));
    case Tick(c, sliced) =>
      TickStep(s.k, c, sliced);
      TickPends(s.k, c, sliced);
    case _ =>
  }

  lemma TickPends(k: K.Kernel, c: CoreId, sliced: bool)
    ensures k.pending <= K.Tick(k, c, sliced).pending
  {
    hide Sane;
  }

  /** What a switch picks is outranked by nobody. */
  lemma SwitchPrompt(k: K.Kernel, wakes: seq<(FutexId, bool)>, corrupt: set<TaskId>, started: bool)
    requires Placed(k) && PlainOnly(k, wakes) && 0 < k.cores && (0 in k.current ==> k.locked >= 0)
    ensures Sane(k) && (0 in k.current ==> Calls(k, 0))
    ensures var r := K.Switch(k, 0, wakes, corrupt, started).0; Prompt(r) && SameSetting(k, r)
  {
    hide K.Kernel.Look, Sane, Placed, K.Switch, ShouldSwitch, Dropped, Q.Before;
    PlacedSane(k);
    SwitchPicks(k, 0, wakes, corrupt, started, 2, 0);
    var r := K.Switch(k, 0, wakes, corrupt, started).0;
    forall u ensures !Outranks(r, 0, u) {
      SwitchPicks(k, 0, wakes, corrupt, started, u, 0);
      if Contends(r, 0, u) && 0 in r.current { BeforeMeans(r, r.current[0], u); }
    }
  }

  lemma BeforeMeans(k: K.Kernel, t: TaskId, u: TaskId)
    requires Q.Before(k.queues.entry, t, u)
    ensures k.Look(t).Some? && k.Look(u).Some? ==> k.Look(t).value.prio <= k.Look(u).value.prio
  {
    Seen(k, t);
    Seen(k, u);
  }

  /** While the scheduler is locked a switch does nothing but take the request away. */
  lemma LockedPrompt(k: K.Kernel, wakes: seq<(FutexId, bool)>, corrupt: set<TaskId>, started: bool)
    requires Placed(k) && PlainOnly(k, wakes) && 0 in k.current && k.locked < 0
    ensures Calls(k, 0)
    ensures var r := K.Switch(k, 0, wakes, corrupt, started).0;
            SameSetting(k, r) && (Prompt(r) <==> !exists u :: Outranks(k, 0, u))
  {
    hide K.Kernel.Look, Sane, Placed, Outranks;
    CallerReady(k, 0);
    var r := k.(pending := k.pending - {0});
    SameLooks(k, r);
    NobodyNew(k, r, 0);
    NobodyNew(r, k, 0);
  }

  /** On one core, a step leaves nobody behind exactly if it does not neglect anybody. */
  lemma StepPrompt(s: P.System, a: Action)
    requires P.Inv(s) && Enabled(s, a) && Asserted(s, a) && s.k.cores == 1 && Prompt(s.k)
    ensures Apply(s, a).0.k.cores == 1
    ensures Prompt(Apply(s, a).0.k) <==> !Neglects(s, a)
  {
    hide K.Kernel.Look, MutexesOk, Placed, Sane, P.Inv, P.PcOk, K.Switch, Outranks, Calls, Misses;
    P.CallerReadySane(s);
    var r := Apply(s, a).0.k;
    if Local(a) {
      LocalLooks(s, a);
      NobodyNew(s.k, r, 0);
    } else if a.Switch? {
      if 0 in s.k.current && s.k.locked < 0 {
        LockedPrompt(s.k, a.wakes, a.corrupt, a.started);
      } else {
        SwitchPrompt(s.k, a.wakes, a.corrupt, a.started);
        NobodyRuns(s.k);
      }
    } else {
      OneCore(s.k, a.c);
      CallPreempts(s, a);
      MissedOne(s.k, r);
    }
  }

  lemma NobodyRuns(k: K.Kernel)
    ensures 0 !in k.current ==> forall u :: !Outranks(k, 0, u)
  {}

  lemma MissedOne(k: K.Kernel, r: K.Kernel)
    requires Prompt(k) && k.pending <= r.pending
    ensures Requested(k, r, 0) <==> Prompt(r)
  {
    hide Outranks;
  }

  ghost predicate LeadsAlert(s: P.System, steps: seq<Action>, s': P.System)
    decreases |steps|
  {
    if steps == [] then s' == s
    else
      && Enabled(s, steps[0]) && Asserted(s, steps[0]) && !Neglects(s, steps[0])
      && LeadsAlert(Apply(s, steps[0]).0, steps[1..], s')
  }

  lemma {:induction false} PromptOnRun(s: P.System, steps: seq<Action>, s': P.System)
    requires P.Inv(s) && s.k.cores == 1 && Prompt(s.k) && LeadsAlert(s, steps, s')
    ensures P.Inv(s') && s'.k.cores == 1 && Prompt(s'.k)
    decreases |steps|
  {
    hide P.Inv, Enabled, Asserted, Apply, Prompt, Neglects;
    if steps != [] {
      ApplyKeeps(s, steps[0]);
      StepPrompt(s, steps[0]);
      PromptOnRun(Apply(s, steps[0]).0, steps[1..], s');
    }
  }

  /**
   Preemption on one core: on every run on which nobody is neglected, a ready task is never more urgent than the running
   one unless a switch has been requested.
   */
  lemma PromptOnOneCore(s0: P.System, steps: seq<Action>, s: P.System, u: TaskId)
    requires Start(s0) && s0.k.cores == 1 && Prompt(s0.k) && LeadsAlert(s0, steps, s)
    requires Outranks(s.k, 0, u)
    ensures 0 in s.k.pending
  {
    hide P.Inv, Start, LeadsAlert, Outranks;
    StartInv(s0);
    PromptOnRun(s0, steps, s);
  }
}
