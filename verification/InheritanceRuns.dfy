/** Priority inheritance over whole runs. */
module InheritanceRuns {
  import opened Types
  import opened K = Kernel
  import opened Steps
  import opened Placement
  import opened Calmness
  import opened MutexKernel
  import opened Inheritance
  import opened MutexRuns
  import P = MutexProtocol
  import Q = TaskQueues

  /**
   The steps that inheritance copes with: nobody sets a priority, and nobody blocks on a mutex that lends
   priority while owning another one that does.
   */
  ghost predicate Restrained(s: P.System, a: Action) {
    && !(a.Service? && a.call.SetPriority?)
    && (a.SvcWait? && Runs(s, a.c) && IsPi(s.k, Pending(s, a.c)) ==> OwnsNoPi(s.k, s.k.current[a.c]))
  }

  /** A write to a plain word, or to the word of a mutex nobody waits for. */
  lemma SetWordBound(k: K.Kernel, f: FutexId, v: int)
    requires BoundOk(k) && f in k.futexes && Sane(k)
    requires k.futexes[f].kind.Mutex? ==> k.Waiters(f) == []
    requires forall u :: IsMutex(k, f) && OwnerOf(v) == u && k.Look(u).Some? ==> !P.Queued(k.Look(u).value)
    ensures BoundOk(SetWord(k, f, v))
  {
    hide K.Kernel.Look, Sane, OwnerOf;
    SetWordStep(k, f, v);
    var r := SetWord(k, f, v);
    forall g, u ensures Bounded(r, g, u) {
      assert Bounded(k, g, u);
      if IsPi(r, g) && WaitsFor(r, g, u) {
        OnQueue(k, Q.WaitersOf(g), u);
        SameLive(k, r, k.futexes[g].value);
        forall h | IsPi(r, h) ensures !Names(r, h, u) {
          assert IsPi(k, h) && !Names(k, h, u);
        }
      }
    }
  }

  lemma WriteBound(s: P.System, c: CoreId, f: FutexId, v: int)
    requires P.Inv(s) && BoundOk(s.k) && Runs(s, c) && IsMutex(s.k, f)
    requires !Contended(s.k.futexes[f].value) && (v == 0 || v == s.k.current[c])
    ensures BoundOk(SetWord(s.k, f, v))
  {
    hide K.Kernel.Look, Sane, Placed, BoundOk, Contended, OwnerOf;
    P.CallerReadySane(s);
    P.Running(s, c);
    P.NotStranded(s, f);
    OwnerEven(s.k.current[c]);
    OwnerTwice(0);
    SetWordBound(s.k, f, v);
  }

  lemma WaitStepBound(s: P.System, c: CoreId)
    requires P.Inv(s) && Runs(s, c) && PcAt(s, c).CallWait? && BoundOk(s.k)
    requires IsPi(s.k, PcAt(s, c).f) ==> OwnsNoPi(s.k, s.k.current[c])
    requires Asserted(s, SvcWait(c))
    ensures BoundOk(P.SvcWait(s, c).k)
  {
    hide K.Kernel.Look, MutexesOk, Placed, Sane, P.Inv, Calm, BoundOk, K.Wait, ShouldBlock, OwnsNoPi;
    P.CallerReadySane(s);
    P.WaitCallable(s, c);
    var pc := PcAt(s, c);
    if ShouldBlock(s.k.futexes[pc.f], pc.expected) {
      WaitBound(s.k, c, pc.f, pc.expected, pc.delay);
    } else {
      WaitCalm(s.k, c, pc.f, pc.expected, pc.delay);
      WaitReadyStep(s.k, c, pc.f, pc.expected, pc.delay);
      P.Running(s, c);
      CalmBound(s.k, P.SvcWait(s, c).k, {s.k.current[c]});
    }
  }

  lemma WakeStepBound(s: P.System, c: CoreId)
    requires P.Inv(s) && Runs(s, c) && PcAt(s, c).CallWake? && BoundOk(s.k)
    ensures Asserted(s, SvcWake(c)) && BoundOk(P.SvcWake(s, c).0.k)
  {
    hide K.Kernel.Look, MutexesOk, Placed, Sane, P.Inv, K.Wake, Bounded;
    P.CallWakeOk(s, c);
    P.SvcWakeKeeps(s, c);
    forall g, u ensures Bounded(P.SvcWake(s, c).0.k, g, u) {
      WakeBounded(s.k, c, PcAt(s, c).f, false, g, u);
    }
  }

  /** Kept by everything that the kernel does without touching a mutex, and by writes to plain words. */
  lemma KernelBound(s: P.System, a: Action)
    requires P.Inv(s) && Enabled(s, a) && Asserted(s, a) && Restrained(s, a) && BoundOk(s.k)
    requires LeavesMutexes(a)
    ensures BoundOk(Apply(s, a).0.k)
  {
    hide K.Kernel.Look, MutexesOk, Placed, Sane, P.Inv, Calm, BoundOk, Serve, K.Tick, K.Switch, OwnerOf;
    P.CallerReadySane(s);
    if a.Poke? {
      SetWordBound(s.k, a.f, a.v);
    } else {
      var x, y := LeavesThemCalm(s, a);
      CalmBound(s.k, Apply(s, a).0.k, x);
    }
  }

  lemma StepBound(s: P.System, a: Action)
    requires P.Inv(s) && Enabled(s, a) && Asserted(s, a) && Restrained(s, a) && BoundOk(s.k)
    ensures BoundOk(Apply(s, a).0.k)
  {
    hide K.Kernel.Look, MutexesOk, Placed, Sane, P.Inv, BoundOk, Calls, P.SvcWait, P.SvcWake, Serve;
    match a
    case SvcWait(c) => WaitStepBound(s, c);
    case SvcWake(c) => WakeStepBound(s, c);
    case Swap(c) =>
      if s.k.futexes[PcAt(s, c).f].value == 0 {
        P.Running(s, c);
        WriteBound(s, c, PcAt(s, c).f, s.k.current[c]);
      }
    case SwapOut(c) =>
      if s.k.futexes[PcAt(s, c).f].value == s.k.current[c] {
        P.Running(s, c);
        WriteBound(s, c, PcAt(s, c).f, 0);
      }
    case _ =>
      if LeavesMutexes(a) { KernelBound(s, a); }
  }

  /** Every step of the run is restrained. */
  ghost predicate LeadsRestrained(s: P.System, steps: seq<Action>, s': P.System)
    decreases |steps|
  {
    if steps == [] then s' == s
    else
      && Enabled(s, steps[0]) && Asserted(s, steps[0]) && Restrained(s, steps[0])
      && LeadsRestrained(Apply(s, steps[0]).0, steps[1..], s')
  }

  lemma {:induction false} BoundOnRun(s: P.System, steps: seq<Action>, s': P.System)
    requires P.Inv(s) && BoundOk(s.k) && LeadsRestrained(s, steps, s')
    ensures P.Inv(s') && BoundOk(s'.k)
    decreases |steps|
  {
    hide P.Inv, BoundOk, Enabled, Asserted, Apply, Restrained;
    if steps != [] {
      ApplyKeeps(s, steps[0]);
      StepBound(s, steps[0]);
      BoundOnRun(Apply(s, steps[0]).0, steps[1..], s');
    }
  }

  /**
   The inheritance bound: whoever waits for a mutex that lends priority finds its owner at least as urgent as himself,
   unless it is dead, on every run without set-priority on which nobody blocks while he lends already. A dead owner has
   released the mutex when nobody was waiting.
   */
  lemma OwnersAreUrgent(s0: P.System, steps: seq<Action>, s: P.System, f: FutexId, u: TaskId)
    requires Start(s0) && LeadsRestrained(s0, steps, s) && IsPi(s.k, f) && u in s.k.Waiters(f)
    ensures u in s.k.tasks && OwnerOf(s.k.futexes[f].value) > 0
    ensures if OwnerLive(s.k, s.k.futexes[f].value) then s.k.Prio(OwnerOf(s.k.futexes[f].value)) <= s.k.Prio(u)
            else f in s.stale
  {
    hide K.Kernel.Look, MutexesOk, Placed, Sane, LeadsRestrained, OwnerOf;
    StartInv(s0);
    StartBound(s0);
    BoundOnRun(s0, steps, s);
    P.CallerReadySane(s);
    OnQueue(s.k, Q.WaitersOf(f), u);
    assert Bounded(s.k, f, u);
    Seen(s.k, u);
    P.NotStranded(s, f);
    OwnerTwice(s.k.futexes[f].value);
    var owner: TaskId := OwnerOf(s.k.futexes[f].value);
    Seen(s.k, owner);
    if !OwnerLive(s.k, s.k.futexes[f].value) { DeadIsStale(s, f); }
  }

  lemma StartBound(s: P.System)
    requires Start(s)
    ensures BoundOk(s.k)
  {
    hide K.Kernel.Look, Placed, Sane;
    PlacedSane(s.k);
    forall f, u ensures Bounded(s.k, f, u) {
      OnQueue(s.k, Q.WaitersOf(f), u);
    }
  }
}
