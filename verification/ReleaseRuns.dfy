/**
 When release really frees a mutex. A thread whose waiters have all given up wakes nobody, and the word keeps
 naming it. On runs on which no waiter gives up this never happens.
 */
module ReleaseRuns {
  import opened Types
  import opened K = Kernel
  import opened Steps
  import opened Placement
  import opened Calmness
  import opened MutexKernel
  import opened MutexRuns
  import P = MutexProtocol
  import Q = TaskQueues

  /** Nobody stops waiting for a mutex except by being given it. */
  ghost predicate Patient(k: K.Kernel, k': K.Kernel) {
    forall f, u :: IsMutex(k, f) && WaitsFor(k, f, u) ==> WaitsFor(k', f, u) || Names(k', f, u)
  }

  /** The flag is set only while somebody waits. */
  predicate FlagTrue(k: K.Kernel, f: FutexId) {
    IsMutex(k, f) && Contended(k.futexes[f].value) ==> k.Waiters(f) != []
  }

  /** A thread calls the kernel to release a mutex only when it is contended. */
  predicate WakeNeeded(s: P.System, t: TaskId) {
    t in s.threads && s.threads[t].pc.CallWake? ==>
      IsMutex(s.k, s.threads[t].pc.f) && Contended(s.k.futexes[s.threads[t].pc.f].value)
  }

  ghost predicate Tidy(s: P.System) {
    && (forall f :: FlagTrue(s.k, f))
    && s.stale == {}
    && (forall t :: WakeNeeded(s, t))
  }

  /** The mutex words are the same. */
  ghost predicate SameWords(k: K.Kernel, k': K.Kernel) {
    forall f :: (IsMutex(k', f) <==> IsMutex(k, f)) && (IsMutex(k, f) ==> k'.futexes[f] == k.futexes[f])
  }

  lemma WordAt(k: K.Kernel, k': K.Kernel, f: FutexId)
    requires SameWords(k, k') && IsMutex(k, f)
    ensures IsMutex(k', f) && k'.futexes[f] == k.futexes[f]
  {}

  /** While somebody keeps waiting, the flag stays true. */
  lemma FlagKept(s: P.System, k': K.Kernel, f: FutexId)
    requires P.Inv(s) && Placed(k') && Patient(s.k, k') && FlagTrue(s.k, f) && SameWords(s.k, k')
    ensures FlagTrue(k', f)
  {
    hide K.Kernel.Look, MutexesOk, Placed, Sane;
    if IsMutex(k', f) && Contended(k'.futexes[f].value) {
      P.CallerReadySane(s);
      PlacedSane(k');
      var u := s.k.Waiters(f)[0];
      OnQueue(s.k, Q.WaitersOf(f), u);
      P.Alive(s, u);
      BlockedWaiter(s.k, f, u);
      OnQueue(k', Q.WaitersOf(f), u);
    }
  }

  lemma BlockedWaiter(k: K.Kernel, f: FutexId, u: TaskId)
    requires Placed(k) && WaitsFor(k, f, u)
    ensures Exposed(k.Look(u).value)
  {
    hide K.Kernel.Look, Sane;
    assert At(k, u);
  }

  /** Steps that change no mutex word and no thread. */
  lemma FollowTidy(s: P.System, k': K.Kernel)
    requires P.Inv(s) && Tidy(s) && Patient(s.k, k') && Placed(k') && SameWords(s.k, k')
    ensures Tidy(P.Follow(s, k'))
  {
    hide K.Kernel.Look, MutexesOk, Placed, P.PcOk, P.HoldOk, P.Inv, Patient, SameWords, Names;
    var s' := P.Follow(s, k');
    forall f ensures FlagTrue(k', f) {
      FlagKept(s, k', f);
    }
    forall t ensures WakeNeeded(s', t) {
      assert WakeNeeded(s, t);
      if t in s.threads && s.threads[t].pc.CallWake? { WordAt(s.k, k', s.threads[t].pc.f); }
    }
  }

  /** A user step of `t` that leaves the kernel state alone. */
  lemma LocalTidy(s: P.System, s': P.System, t: TaskId)
    requires Tidy(s) && s'.k == s.k && s'.stale <= s.stale
    requires forall u :: u in s.threads ==> u in s'.threads && (u != t ==> s'.threads[u] == s.threads[u])
    requires forall u :: u in s'.threads ==> u in s.threads
    requires WakeNeeded(s', t)
    ensures Tidy(s')
  {
    hide K.Kernel.Look, Names;
    forall f ensures FlagTrue(s'.k, f) { assert FlagTrue(s.k, f); }
    forall u ensures WakeNeeded(s', u) { assert WakeNeeded(s, u); }
  }

  lemma WakesNamed(s: P.System, t: TaskId)
    requires P.Inv(s)
    ensures t in s.threads && (s.threads[t].pc.CallWake? || s.threads[t].pc.TryUnlock? || s.threads[t].pc.SwapBack?) ==>
              Names(s.k, s.threads[t].pc.f, t) && s.threads[t].pc.f in s.threads[t].held
  {
    hide K.Kernel.Look, MutexesOk, P.PcOk;
    if t in s.threads && !s.threads[t].pc.Idle? {
      P.Holds(s, t, s.threads[t].pc.f);
    }
  }

  /** The steps of acquire that only read the word. */
  lemma AcquireTidy(s: P.System, a: Action)
    requires P.Inv(s) && Tidy(s) && Enabled(s, a) && Asserted(s, a)
    requires a.Acquire? || a.Returned? || a.Test? || (a.Swap? && s.k.futexes[PcAt(s, a.c).f].value != 0)
    ensures Tidy(Apply(s, a).0)
  {
    hide K.Kernel.Look, MutexesOk, Placed, Sane, P.Inv, Calls, P.PcOk, OwnerOf;
    P.Running(s, a.c);
    var t := s.k.current[a.c];
    var s' := Apply(s, a).0;
    if a.Returned? { P.ReturnedKeeps(s, a.c); }
    LocalTidy(s, s', t);
  }

  /** The steps of release that only read the word. */
  lemma ReleaseTidy(s: P.System, a: Action)
    requires P.Inv(s) && Tidy(s) && Enabled(s, a) && Asserted(s, a)
    requires a.Release? || a.ReadWord? || (a.SwapOut? && s.k.futexes[PcAt(s, a.c).f].value != s.k.current[a.c])
    ensures Tidy(Apply(s, a).0)
  {
    hide K.Kernel.Look, MutexesOk, Placed, Sane, P.Inv, Calls, P.PcOk, OwnerOf;
    P.Running(s, a.c);
    var t := s.k.current[a.c];
    var s' := Apply(s, a).0;
    WakesNamed(s, t);
    if a.Release? {
      P.Holds(s, t, a.f);
    } else {
      Flagged(s.k, PcAt(s, a.c).f, t);
    }
    LocalTidy(s, s', t);
  }

  /** A word that names `t` and is not just `t` has the flag. */
  lemma Flagged(k: K.Kernel, f: FutexId, t: TaskId)
    ensures Names(k, f, t) && k.futexes[f].value != t ==> Contended(k.futexes[f].value)
  {}

  /** The compare-and-swaps that succeed. */
  lemma WriteTidy(s: P.System, s': P.System, c: CoreId, f: FutexId, v: int)
    requires P.Inv(s) && Tidy(s) && Runs(s, c) && IsMutex(s.k, f)
    requires s.k.futexes[f].value == 0 || s.k.futexes[f].value == s.k.current[c]
    requires v == 0 || v == s.k.current[c]
    requires s'.k == SetWord(s.k, f, v) && s'.stale <= s.stale
    requires forall u :: u in s'.threads <==> u in s.threads
    requires forall u :: u in s.threads && u != s.k.current[c] ==> s'.threads[u] == s.threads[u]
    requires s'.threads[s.k.current[c]].pc.Idle?
    ensures Tidy(s')
  {
    hide K.Kernel.Look, MutexesOk, Placed, P.Inv, P.PcOk;
    var t := s.k.current[c];
    forall g ensures FlagTrue(s'.k, g) { assert FlagTrue(s.k, g); }
    forall u ensures WakeNeeded(s', u) {
      assert WakeNeeded(s, u);
      WakesNamed(s, u);
    }
  }

  lemma SwapTidy(s: P.System, a: Action)
    requires P.Inv(s) && Tidy(s) && Enabled(s, a) && Asserted(s, a) && (a.Swap? || a.SwapOut?)
    ensures Tidy(Apply(s, a).0)
  {
    hide K.Kernel.Look, MutexesOk, Placed, Sane, P.Inv, Calls, Tidy, P.PcOk, OwnerOf;
    P.Running(s, a.c);
    var f := PcAt(s, a.c).f;
    if a.Swap? && s.k.futexes[f].value == 0 {
      IsThat(s, a.c);
      WriteTidy(s, Apply(s, a).0, a.c, f, s.k.current[a.c]);
    } else if a.SwapOut? && s.k.futexes[f].value == s.k.current[a.c] {
      IsThat(s, a.c);
      WriteTidy(s, Apply(s, a).0, a.c, f, 0);
    } else if a.Swap? {
      AcquireTidy(s, a);
    } else {
      ReleaseTidy(s, a);
    }
  }

  lemma IsThat(s: P.System, c: CoreId)
    requires P.Inv(s) && Runs(s, c) && !PcAt(s, c).Idle?
    ensures IsMutex(s.k, PcAt(s, c).f)
  {
    hide K.Kernel.Look, MutexesOk;
    P.Running(s, c);
  }

  /** A wait leaves a flag only where its caller then waits. */
  lemma WaitTidy(s: P.System, c: CoreId)
    requires P.Inv(s) && Tidy(s) && Runs(s, c) && PcAt(s, c).CallWait? && Asserted(s, SvcWait(c))
    ensures Tidy(P.SvcWait(s, c))
  {
    hide K.Kernel.Look, MutexesOk, Placed, Sane, P.Inv, P.PcOk, OwnerOf, OwnerLive;
    P.CallerReadySane(s);
    P.WaitCallable(s, c);
    P.SvcWaitKeeps(s, c);
    P.WaitingPcOk(s, c);
    var t := s.k.current[c];
    var s' := P.SvcWait(s, c);
    P.CallerReadySane(s');
    forall f ensures FlagTrue(s'.k, f) { WaitFlag(s, c, f); }
    forall u ensures WakeNeeded(s', u) {
      assert WakeNeeded(s, u);
      if u in s.threads && s.threads[u].pc.CallWake? { WaitContended(s, c, s.threads[u].pc.f); }
    }
  }

  /** A wait never clears a flag, and sets at most that of its futex. */
  lemma WaitContended(s: P.System, c: CoreId, f: FutexId)
    requires P.Inv(s) && Runs(s, c) && PcAt(s, c).CallWait? && Asserted(s, SvcWait(c))
    ensures var r := P.SvcWait(s, c).k;
            && (IsMutex(r, f) <==> IsMutex(s.k, f))
            && (IsMutex(r, f) && Contended(s.k.futexes[f].value) ==> Contended(r.futexes[f].value))
            && (IsMutex(r, f) && f != PcAt(s, c).f ==> r.futexes[f] == s.k.futexes[f])
            && (!ShouldBlock(s.k.futexes[PcAt(s, c).f], PcAt(s, c).expected) ==> r.futexes == s.k.futexes)
  {
    hide K.Kernel.Look, MutexesOk, Placed, Sane, P.Inv, P.PcOk, OwnerLive, K.Wait, Lent, ShouldBlock, BlockLook;
    P.WaitCallable(s, c);
    var pc := PcAt(s, c);
    if ShouldBlock(s.k.futexes[pc.f], pc.expected) {
      WaitStep(s.k, c, pc.f, pc.expected, pc.delay);
      SameOwner(s.k.futexes[pc.f], pc.expected);
    } else {
      WaitReadyStep(s.k, c, pc.f, pc.expected, pc.delay);
    }
  }

  lemma WaitFlag(s: P.System, c: CoreId, f: FutexId)
    requires P.Inv(s) && Runs(s, c) && PcAt(s, c).CallWait? && FlagTrue(s.k, f)
    requires Asserted(s, SvcWait(c)) && Sane(s.k) && Sane(P.SvcWait(s, c).k)
    ensures FlagTrue(P.SvcWait(s, c).k, f)
  {
    hide K.Kernel.Look, MutexesOk, Placed, Sane, P.Inv, P.PcOk, OwnerLive, K.Wait, Lent, ShouldBlock, Contended;
    P.WaitCallable(s, c);
    P.Running(s, c);
    WaitContended(s, c, f);
    var pc := PcAt(s, c);
    var r := P.SvcWait(s, c).k;
    var cur := s.k.current[c];
    if ShouldBlock(s.k.futexes[pc.f], pc.expected) {
      WaitStep(s.k, c, pc.f, pc.expected, pc.delay);
      WaitLookPlaces(s.k, c, pc.f, pc.delay);
    } else {
      WaitReadyStep(s.k, c, pc.f, pc.expected, pc.delay);
    }
    if f == pc.f && ShouldBlock(s.k.futexes[pc.f], pc.expected) {
      OnQueue(r, Q.WaitersOf(f), cur);
    } else if s.k.Waiters(f) != [] {
      OnQueue(s.k, Q.WaitersOf(f), s.k.Waiters(f)[0]);
      OnQueue(r, Q.WaitersOf(f), s.k.Waiters(f)[0]);
    }
  }

  /** With somebody waiting, the release hands over, and only the new owner is named. */
  lemma WakeTidy(s: P.System, c: CoreId)
    requires P.Inv(s) && Tidy(s) && Runs(s, c) && PcAt(s, c).CallWake?
    ensures Asserted(s, SvcWake(c)) && Tidy(P.SvcWake(s, c).0)
    ensures !Names(P.SvcWake(s, c).0.k, PcAt(s, c).f, s.k.current[c])
  {
    hide K.Kernel.Look, MutexesOk, Placed, Sane, P.Inv, P.PcOk, OwnerOf, OwnerLive, K.Wake;
    var t := s.k.current[c];
    var f := PcAt(s, c).f;
    P.CallerReadySane(s);
    P.CallWakeOk(s, c);
    P.SvcWakeKeeps(s, c);
    OwnerWakes(s.k, c, f, false);
    P.HeadIsOther(s, c, f);
    assert WakeNeeded(s, t) && FlagTrue(s.k, f);
    FlagAfterWake(s.k, c, f, false);
    var s' := P.SvcWake(s, c).0;
    P.CallerReadySane(s');
    forall g ensures FlagTrue(s'.k, g) {
      assert FlagTrue(s.k, g);
      if g != f { OtherQueue(s.k, s'.k, f, g); }
    }
    forall u ensures WakeNeeded(s', u) {
      assert WakeNeeded(s, u);
      WakesNamed(s, u);
      NamesOne(s.k, f, t, u);
    }
  }

  lemma OtherQueue(k: K.Kernel, r: K.Kernel, f: FutexId, g: FutexId)
    requires Sane(k) && Sane(r) && g != f && forall u :: Handed(k, r, f, u)
    ensures k.Waiters(g) != [] ==> r.Waiters(g) != []
  {
    hide K.Kernel.Look, Sane;
    if k.Waiters(g) != [] {
      var u := k.Waiters(g)[0];
      OnQueue(k, Q.WaitersOf(g), u);
      assert Handed(k, r, f, u);
      OnQueue(r, Q.WaitersOf(g), u);
    }
  }

  lemma CalmKeepsWords(k: K.Kernel, k': K.Kernel, x: set<TaskId>, y: set<TaskId>)
    requires Calm(k, k', x, y)
    ensures SameWords(k, k')
  {
    hide K.Kernel.Look, CalmFace;
  }

  /** What the kernel does without touching a mutex, as long as no waiter gives up. */
  lemma KernelTidy(s: P.System, a: Action)
    requires P.Inv(s) && Tidy(s) && Enabled(s, a) && Asserted(s, a) && LeavesMutexes(a)
    requires Patient(s.k, Apply(s, a).0.k)
    ensures Tidy(Apply(s, a).0)
  {
    hide K.Kernel.Look, MutexesOk, Placed, Sane, P.Inv, Calm, Serve, K.Tick, K.Switch, Tidy, Patient, SameWords;
    var k' := Apply(s, a).0.k;
    if a.Poke? {
      PokePlaced(s, a.f, a.v);
    } else {
      var x, y := LeavesThemCalm(s, a);
      CalmKeepsWords(s.k, k', x, y);
    }
    FollowTidy(s, k');
  }

  lemma PokePlaced(s: P.System, f: FutexId, v: int)
    requires P.Inv(s) && IsPlain(s.k, f)
    ensures var k' := SetWord(s.k, f, v);
            Placed(k') && SameWords(s.k, k') && forall u :: s.k.Look(u).Some? ==> k'.Look(u).Some?
  {
    hide K.Kernel.Look, Placed, Sane;
    P.CallerReadySane(s);
    SetWordStep(s.k, f, v);
    Graded(s.k, SetWord(s.k, f, v));
  }

  lemma StepTidy(s: P.System, a: Action)
    requires P.Inv(s) && Tidy(s) && Enabled(s, a) && Asserted(s, a) && Patient(s.k, Apply(s, a).0.k)
    ensures Tidy(Apply(s, a).0)
  {
    hide K.Kernel.Look, MutexesOk, Placed, Sane, P.Inv, Calls, Tidy, Patient, Serve, P.SvcWait, P.SvcWake;
    match a
    case SvcWait(c) => WaitTidy(s, c);
    case SvcWake(c) => WakeTidy(s, c);
    case Swap(_) => SwapTidy(s, a);
    case SwapOut(_) => SwapTidy(s, a);
    case Acquire(_, _, _, _) => AcquireTidy(s, a);
    case Returned(_) => AcquireTidy(s, a);
    case Test(_) => AcquireTidy(s, a);
    case Release(_, _) => ReleaseTidy(s, a);
    case ReadWord(_) => ReleaseTidy(s, a);
    case _ => KernelTidy(s, a);
  }

  /** A run on which no waiter gives up. */
  ghost predicate LeadsPatiently(s: P.System, steps: seq<Action>, s': P.System)
    decreases |steps|
  {
    if steps == [] then s' == s
    else
      && Enabled(s, steps[0]) && Asserted(s, steps[0]) && Patient(s.k, Apply(s, steps[0]).0.k)
      && LeadsPatiently(Apply(s, steps[0]).0, steps[1..], s')
  }

  lemma {:induction false} TidyOnRun(s: P.System, steps: seq<Action>, s': P.System)
    requires P.Inv(s) && Tidy(s) && LeadsPatiently(s, steps, s')
    ensures P.Inv(s') && Tidy(s')
    decreases |steps|
  {
    hide P.Inv, Tidy, Enabled, Asserted, Apply, Patient;
    if steps != [] {
      ApplyKeeps(s, steps[0]);
      StepTidy(s, steps[0]);
      TidyOnRun(Apply(s, steps[0]).0, steps[1..], s');
    }
  }

  /**
   On a run on which no waiter gives up, a released mutex is free or has a new owner: whoever a word names is alive and
   holds the mutex or is about to, a thread that releases it is named no longer, and no assertion of the kernel fails.
   */
  lemma ReleaseFrees(s0: P.System, steps: seq<Action>, s: P.System, f: FutexId, t: TaskId)
    requires Start(s0) && LeadsPatiently(s0, steps, s)
    ensures Names(s.k, f, t) ==> t in s.threads && (f in s.threads[t].held || P.Inheriting(s.threads[t].pc, f))
    ensures forall a :: Enabled(s, a) ==> Asserted(s, a)
    ensures forall c :: Enabled(s, SvcWake(c)) ==>
              Asserted(s, SvcWake(c)) && !Names(Apply(s, SvcWake(c)).0.k, PcAt(s, c).f, s.k.current[c])
  {
    hide K.Kernel.Look, MutexesOk, Placed, Sane, P.Inv, LeadsPatiently, Calls, P.SvcWake, FlagTrue, WakeNeeded;
    StartInv(s0);
    StartTidy(s0);
    TidyOnRun(s0, steps, s);
    P.Holds(s, t, f);
    forall a | Enabled(s, a) ensures Asserted(s, a) {
      NothingFails(s, a);
    }
    forall c | Enabled(s, SvcWake(c))
      ensures Asserted(s, SvcWake(c)) && !Names(Apply(s, SvcWake(c)).0.k, PcAt(s, c).f, s.k.current[c])
    {
      WakesAway(s, c);
    }
  }

  lemma NothingFails(s: P.System, a: Action)
    requires P.Inv(s) && Tidy(s) && Enabled(s, a)
    ensures Asserted(s, a)
  {
    hide P.Inv, FlagTrue, WakeNeeded, Enabled, Asserted, WaitsForDead;
    FailsExactly(s, a);
  }

  lemma WakesAway(s: P.System, c: CoreId)
    requires P.Inv(s) && Tidy(s) && Enabled(s, SvcWake(c))
    ensures Asserted(s, SvcWake(c)) && !Names(Apply(s, SvcWake(c)).0.k, PcAt(s, c).f, s.k.current[c])
  {
    hide K.Kernel.Look, MutexesOk, Placed, Sane, P.Inv, Tidy, Calls, P.SvcWake;
    WakeTidy(s, c);
  }

  lemma StartTidy(s: P.System)
    requires Start(s)
    ensures Tidy(s)
  {
    hide K.Kernel.Look, Placed;
  }

  /**
   The exact condition: the wake of a release leaves the word naming the releaser, who holds nothing, if and only if
   nobody is waiting any more.
   */
  lemma ReleaseSticks(s: P.System, c: CoreId)
    requires P.Inv(s) && Enabled(s, SvcWake(c))
    ensures Asserted(s, SvcWake(c))
    ensures var t := s.k.current[c]; var f := PcAt(s, c).f; var s' := Apply(s, SvcWake(c)).0;
            && (Names(s'.k, f, t) && f !in s'.threads[t].held <==> s.k.Waiters(f) == [])
            && (f in s'.stale <==> s.k.Waiters(f) == [])
  {
    hide K.Kernel.Look, MutexesOk, Placed, Sane, P.Inv, Calls, K.Wake;
    P.SvcWakeKeeps(s, c);
  }
}
