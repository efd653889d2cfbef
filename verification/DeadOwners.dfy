/**
 Mutexes whose word names a thread that is no more. A thread that releases a mutex after its last waiter has given up
 stays named by the word, and may then exit. From then on the mutex is lost, and with priority inheritance the next
 thread that waits for it runs into an assertion of the kernel.
 */
module DeadOwners {
  import opened Types
  import opened K = Kernel
  import opened Steps
  import opened Placement
  import opened Calmness
  import opened MutexKernel
  import opened MutexRuns
  import P = MutexProtocol
  import Q = TaskQueues
  import Tm = TaskTimers
  import Ow = OwnedFutexes

  // ----- runs on which nobody exits while a word names him

  ghost predicate OwnsNothing(k: K.Kernel, t: TaskId) {
    forall f :: !Names(k, f, t)
  }

  ghost predicate Careful(s: P.System, a: Action) {
    forall t :: Dismisses(a, t) ==> OwnsNothing(s.k, t)
  }

  /** The word names nobody or a live thread. */
  predicate LiveWord(k: K.Kernel, f: FutexId) {
    IsMutex(k, f) && k.futexes[f].value != 0 ==> OwnerLive(k, k.futexes[f].value)
  }

  ghost predicate Lively(k: K.Kernel) {
    forall f :: LiveWord(k, f)
  }

  /** Whom the new word names was named before, and has not gone. */
  lemma StillLive(k: K.Kernel, k': K.Kernel, f: FutexId)
    requires LiveWord(k, f) && WordOk(k', f)
    requires forall u :: Names(k', f, u) ==> Names(k, f, u) && (k.Look(u).Some? ==> k'.Look(u).Some?)
    ensures LiveWord(k', f)
  {
    hide K.Kernel.Look;
    if IsMutex(k', f) && k'.futexes[f].value != 0 {
      var t: TaskId := OwnerOf(k'.futexes[f].value);
      assert Names(k', f, t);
      Seen(k, t);
      Seen(k', t);
    }
  }

  lemma WriteLively(s: P.System, c: CoreId, f: FutexId, v: int)
    requires P.Inv(s) && Lively(s.k) && Runs(s, c) && f in s.k.futexes && (v == 0 || v == s.k.current[c])
    ensures Lively(SetWord(s.k, f, v))
  {
    hide K.Kernel.Look, MutexesOk, Placed;
    P.Running(s, c);
    Seen(s.k, s.k.current[c]);
    forall g ensures LiveWord(SetWord(s.k, f, v), g) {
      assert LiveWord(s.k, g);
    }
  }

  lemma WaitLively(s: P.System, c: CoreId)
    requires P.Inv(s) && Lively(s.k) && Enabled(s, SvcWait(c)) && Asserted(s, SvcWait(c))
    ensures Lively(P.SvcWait(s, c).k)
  {
    hide K.Kernel.Look, MutexesOk, Placed, Sane, P.Inv, P.PcOk, K.Wait, LiveWord;
    P.WaitingPcOk(s, c);
    P.SvcWaitKeeps(s, c);
    var s' := P.SvcWait(s, c);
    P.CallerReadySane(s');
    forall g ensures LiveWord(s'.k, g) {
      Word(s'.k, g);
      assert LiveWord(s.k, g);
      StillLive(s.k, s'.k, g);
    }
  }

  lemma WakeLively(s: P.System, c: CoreId)
    requires P.Inv(s) && Lively(s.k) && Enabled(s, SvcWake(c)) && Asserted(s, SvcWake(c))
    ensures Lively(P.SvcWake(s, c).0.k)
  {
    hide K.Kernel.Look, MutexesOk, Placed, Sane, P.Inv, P.PcOk, K.Wake, LiveWord, OwnerOf;
    var t := s.k.current[c];
    var f := PcAt(s, c).f;
    P.CallWakeOk(s, c);
    P.SvcWakeKeeps(s, c);
    P.HeadIsOther(s, c, f);
    OwnerWakes(s.k, c, f, false);
    var r := P.SvcWake(s, c).0.k;
    P.CallerReadySane(P.SvcWake(s, c).0);
    forall g ensures LiveWord(r, g) {
      Word(r, g);
      assert LiveWord(s.k, g);
      forall u ensures s.k.Look(u).Some? ==> r.Look(u).Some? {
        assert Handed(s.k, r, f, u);
      }
      if g == f && s.k.Waiters(f) != [] {
        var u := s.k.Waiters(f)[0];
        assert Handed(s.k, r, f, u);
        Seen(r, u);
        NamedLive(r, f, u);
      } else {
        P.NamesElsewhere(s.k, r, f, g, t);
        forall u ensures Names(r, g, u) ==> Names(s.k, g, u) {
          P.NamesElsewhere(s.k, r, f, g, u);
          NamesOne(r, f, t, u);
        }
        StillLive(s.k, r, g);
      }
    }
  }

  lemma NamedLive(k: K.Kernel, f: FutexId, t: TaskId)
    requires Names(k, f, t) && t in k.tasks
    ensures LiveWord(k, f)
  {}

  lemma KernelLively(s: P.System, a: Action)
    requires P.Inv(s) && Lively(s.k) && Enabled(s, a) && Asserted(s, a) && Careful(s, a) && LeavesMutexes(a)
    ensures Lively(Apply(s, a).0.k)
  {
    hide K.Kernel.Look, MutexesOk, Placed, Sane, P.Inv, Calm, Serve, K.Tick, K.Switch, LiveWord, OwnsNothing;
    P.CallerReadySane(s);
    var k' := Apply(s, a).0.k;
    if a.Poke? {
      SetWordStep(s.k, a.f, a.v);
      forall g ensures LiveWord(k', g) {
        assert LiveWord(s.k, g);
        PlainPoke(s.k, a.f, a.v, g);
      }
    } else {
      var x, y := LeavesThemCalm(s, a);
      P.CalmNames(s.k, k', x, y);
      CalmKeeps(s.k, k', x, y);
      forall g ensures LiveWord(k', g) {
        Word(k', g);
        assert LiveWord(s.k, g);
        forall u | Names(s.k, g, u) && s.k.Look(u).Some? ensures k'.Look(u).Some? {
          if Dismisses(a, u) { NotOwning(s.k, g, u); }
        }
        StillLive(s.k, k', g);
      }
    }
  }

  lemma NotOwning(k: K.Kernel, f: FutexId, t: TaskId)
    ensures OwnsNothing(k, t) ==> !Names(k, f, t)
  {}

  lemma PlainPoke(k: K.Kernel, f: FutexId, v: int, g: FutexId)
    requires IsPlain(k, f)
    ensures LiveWord(k, g) ==> LiveWord(SetWord(k, f, v), g)
    ensures forall t :: Names(SetWord(k, f, v), g, t) <==> Names(k, g, t)
  {}

  lemma StepLively(s: P.System, a: Action)
    requires P.Inv(s) && Lively(s.k) && Enabled(s, a) && Asserted(s, a) && Careful(s, a)
    ensures Lively(Apply(s, a).0.k)
  {
    hide K.Kernel.Look, MutexesOk, Placed, Sane, P.Inv, Calls, Lively, Careful, Serve, P.SvcWait, P.SvcWake;
    match a
    case SvcWait(c) => WaitLively(s, c);
    case SvcWake(c) => WakeLively(s, c);
    case Swap(c) =>
      if s.k.futexes[PcAt(s, c).f].value == 0 { WriteLively(s, c, PcAt(s, c).f, s.k.current[c]); }
    case SwapOut(c) =>
      if s.k.futexes[PcAt(s, c).f].value == s.k.current[c] { WriteLively(s, c, PcAt(s, c).f, 0); }
    case _ =>
      if LeavesMutexes(a) { KernelLively(s, a); }
  }

  ghost predicate LeadsCarefully(s: P.System, steps: seq<Action>, s': P.System)
    decreases |steps|
  {
    if steps == [] then s' == s
    else
      && Enabled(s, steps[0]) && Careful(s, steps[0])
      && (Asserted(s, steps[0]) ==> LeadsCarefully(Apply(s, steps[0]).0, steps[1..], s'))
  }

  /** A lively word is never waited for in vain. */
  lemma LivelyAsserts(s: P.System, a: Action)
    requires P.Inv(s) && Lively(s.k) && Enabled(s, a)
    ensures Asserted(s, a)
  {
    hide K.Kernel.Look, MutexesOk, Placed, Sane, Calls, Asserted, P.PcOk, ShouldBlock, OwnerLive;
    FailsExactly(s, a);
    if a.SvcWait? {
      P.WaitCallable(s, a.c);
      LiveEnough(s.k, PcAt(s, a.c).f, PcAt(s, a.c).expected);
    }
  }

  lemma LiveEnough(k: K.Kernel, f: FutexId, expected: int)
    requires Lively(k)
    ensures f in k.futexes && (ShouldBlock(k.futexes[f], expected) ==> k.futexes[f].value != 0) ==> !P.Forlorn(k, f, expected)
  {
    assert LiveWord(k, f);
  }

  lemma {:induction false} LivelyOnRun(s: P.System, steps: seq<Action>, s': P.System)
    requires P.Inv(s) && Lively(s.k) && LeadsCarefully(s, steps, s')
    ensures P.Inv(s') && Lively(s'.k)
    decreases |steps|
  {
    hide P.Inv, Lively, Enabled, Asserted, Apply, Careful;
    if steps != [] {
      LivelyAsserts(s, steps[0]);
      ApplyKeeps(s, steps[0]);
      StepLively(s, steps[0]);
      LivelyOnRun(Apply(s, steps[0]).0, steps[1..], s');
    }
  }

  /**
   On every run on which nobody is dismissed while a word names him, no assertion of the kernel ever fails, and whoever
   waits for a mutex waits for a live thread.
   */
  lemma SafeWhileCareful(s0: P.System, steps: seq<Action>, s: P.System, f: FutexId, a: Action)
    requires Start(s0) && LeadsCarefully(s0, steps, s)
    ensures Enabled(s, a) ==> Asserted(s, a)
    ensures IsMutex(s.k, f) && s.k.Waiters(f) != [] ==>
              Contended(s.k.futexes[f].value) && OwnerLive(s.k, s.k.futexes[f].value)
  {
    hide K.Kernel.Look, Placed, Sane, LeadsCarefully, Enabled, Asserted;
    StartInv(s0);
    assert Lively(s0.k);
    LivelyOnRun(s0, steps, s);
    if Enabled(s, a) { LivelyAsserts(s, a); }
    if IsMutex(s.k, f) && s.k.Waiters(f) != [] {
      P.NotStranded(s, f);
      assert LiveWord(s.k, f);
    }
  }

  // ----- a lost mutex

  /** Nobody but the thread that a word names can make it name somebody else. */
  lemma WordKept(s: P.System, a: Action, f: FutexId, t: TaskId)
    requires P.Inv(s) && Enabled(s, a) && Asserted(s, a) && Names(s.k, f, t) && t !in s.threads
    ensures Names(Apply(s, a).0.k, f, t)
  {
    hide K.Kernel.Look, MutexesOk, Placed, Sane, P.Inv, P.PcOk, Calm, Serve, K.Tick, K.Switch, K.Wait, K.Wake;
    if a.Poke? {
      PlainPoke(s.k, a.f, a.v, f);
    } else if LeavesMutexes(a) {
      var x, y := LeavesThemCalm(s, a);
      P.CalmNames(s.k, Apply(s, a).0.k, x, y);
    } else {
      match a
      case SvcWait(c) => P.WaitingPcOk(s, c);
      case SvcWake(c) =>
        P.CallWakeOk(s, c);
        OwnerWakes(s.k, c, PcAt(s, c).f, false);
        P.NamesElsewhere(s.k, P.SvcWake(s, c).0.k, PcAt(s, c).f, f, t);
        NamesOne(s.k, f, t, s.k.current[c]);
      case _ =>
    }
  }

  lemma StaysDead(s: P.System, a: Action, t: TaskId)
    requires P.Inv(s) && Enabled(s, a) && Asserted(s, a) && t !in s.threads && !Creates(a, t)
    ensures t !in Apply(s, a).0.threads
  {
    hide K.Kernel.Look, MutexesOk, Placed, Sane, P.Inv, P.PcOk, Calm, Serve, K.Tick, K.Switch, K.Wait, K.Wake;
    ApplyKeeps(s, a);
    P.Alive(s, t);
    var s' := Apply(s, a).0;
    P.Alive(s', t);
    if a.Poke? {
      SetWordStep(s.k, a.f, a.v);
    } else if LeavesMutexes(a) {
      var x, y := LeavesThemCalm(s, a);
    }
  }

  /** A mutex whose word names a dead thread is lost: until the address is used again, nobody ever holds it. */
  lemma {:induction false} LostForGood(s: P.System, steps: seq<Action>, s': P.System, f: FutexId, t: TaskId, u: TaskId)
    requires P.Inv(s) && Leads(s, steps, s') && Names(s.k, f, t) && t !in s.threads
    requires forall i :: 0 <= i < |steps| ==> !Creates(steps[i], t)
    ensures Names(s'.k, f, t) && t !in s'.threads && f !in HeldBy(s', u)
    decreases |steps|
  {
    hide MutexesOk, Enabled, Asserted, Apply, Names, Creates;
    if steps != [] {
      ApplyKeeps(s, steps[0]);
      WordKept(s, steps[0], f, t);
      StaysDead(s, steps[0], t);
      LostForGood(Apply(s, steps[0]).0, steps[1..], s', f, t, u);
    } else {
      P.Holds(s, u, f);
      NamesOne(s.k, f, t, u);
    }
  }

  // ----- how it comes about

  lemma {:induction false} Then(s0: P.System, run: seq<Action>, s: P.System, a: Action)
    requires Leads(s0, run, s) && Enabled(s, a) && Asserted(s, a)
    ensures Leads(s0, run + [a], Apply(s, a).0)
    decreases |run|
  {
    hide Enabled, Asserted, Apply;
    if run == [] {
      assert (run + [a])[1..] == [];
    } else {
      Then(Apply(s0, run[0]).0, run[1..], s, a);
      assert (run + [a])[1..] == run[1..] + [a];
    }
  }

  /** The thread on core `c` is at rest. */
  predicate Resting(s: P.System, c: CoreId) {
    Runs(s, c) && PcAt(s, c).Idle?
  }

  /** It takes a free mutex. */
  lemma Takes(s0: P.System, run: seq<Action>, s: P.System, c: CoreId, f: FutexId) returns (run': seq<Action>, s': P.System)
    requires Leads(s0, run, s) && P.Inv(s) && Resting(s, c) && IsMutex(s.k, f) && s.k.futexes[f].value == 0
    ensures Leads(s0, run', s') && P.Inv(s')
    ensures var t := s.k.current[c];
            && s'.k == SetWord(s.k, f, t) && s'.recursive == s.recursive
            && s'.threads == s.threads[t := P.Thread(P.Idle, s.threads[t].held + multiset{f})]
  {
    hide K.Kernel.Look, MutexesOk, Placed, Sane, P.Inv, Leads;
    var a, b := Acquire(c, f, WAIT_FOREVER, false), Swap(c);
    Then(s0, run, s, a);
    ApplyKeeps(s, a);
    var s1 := Apply(s, a).0;
    Then(s0, run + [a], s1, b);
    ApplyKeeps(s1, b);
    run', s' := run + [a] + [b], Apply(s1, b).0;
  }

  /** It finds the mutex taken and is about to wait for it. */
  lemma Wants(s0: P.System, run: seq<Action>, s: P.System, c: CoreId, f: FutexId) returns (run': seq<Action>, s': P.System)
    requires Leads(s0, run, s) && P.Inv(s) && Resting(s, c) && IsMutex(s.k, f)
    requires s.k.futexes[f].value != 0 && !Names(s.k, f, s.k.current[c])
    ensures Leads(s0, run', s') && P.Inv(s')
    ensures s' == s.Goto(s.k.current[c], P.CallWait(f, WAIT_FOREVER, s.k.futexes[f].value))
  {
    hide K.Kernel.Look, MutexesOk, Placed, Sane, P.Inv, Leads, Names;
    var a, b := Acquire(c, f, WAIT_FOREVER, false), Swap(c);
    Then(s0, run, s, a);
    ApplyKeeps(s, a);
    var s1 := Apply(s, a).0;
    Then(s0, run + [a], s1, b);
    ApplyKeeps(s1, b);
    run', s' := run + [a] + [b], Apply(s1, b).0;
  }

  /** Nobody but `u` waits for `f`. */
  ghost predicate OnlyWaiter(k: K.Kernel, f: FutexId, u: TaskId) {
    forall v :: k.Look(v).Some? && k.Look(v).value.link == Some(Q.WaitersOf(f)) ==> v == u
  }

  lemma NoWaiter(k: K.Kernel, f: FutexId, u: TaskId)
    requires Sane(k) && OnlyWaiter(k, f, u)
    requires k.Waiters(f) == [] || (k.Look(u).Some? && k.Look(u).value.link != Some(Q.WaitersOf(f)))
    ensures k.Waiters(f) == []
  {
    hide K.Kernel.Look, Sane;
    if k.Waiters(f) != [] { OnQueue(k, Q.WaitersOf(f), k.Waiters(f)[0]); }
  }

  lemma FreshQueue(k: K.Kernel, f: FutexId, u: TaskId)
    requires Sane(k) && k.Waiters(f) == []
    ensures OnlyWaiter(k, f, u)
  {
    hide K.Kernel.Look, Sane;
    forall v ensures !(k.Look(v).Some? && k.Look(v).value.link == Some(Q.WaitersOf(f))) {
      OnQueue(k, Q.WaitersOf(f), v);
    }
  }

  /** It waits. */
  lemma Waits(s0: P.System, run: seq<Action>, s: P.System, d: CoreId, f: FutexId, t: TaskId) returns (run': seq<Action>, s': P.System)
    requires Leads(s0, run, s) && P.Inv(s) && Runs(s, d) && IsMutex(s.k, f) && s.k.futexes[f].value == t && t in s.k.tasks
    requires PcAt(s, d) == P.CallWait(f, WAIT_FOREVER, t) && s.k.Waiters(f) == []
    ensures Leads(s0, run', s') && P.Inv(s')
    ensures var u := s.k.current[d];
            && s'.threads == s.threads[u := s.threads[u].(pc := P.Waited(f, WAIT_FOREVER))] && s'.recursive == s.recursive
            && s'.k.current == s.k.current - {d} && IsMutex(s'.k, f) && s'.k.futexes[f].kind == s.k.futexes[f].kind
            && s'.k.futexes[f].value == (t as int) + 1
            && OnlyWaiter(s'.k, f, u) && u in s'.k.tasks && s'.k.tasks[u].state.Blocked?
    ensures Calls(s.k, d) && s'.k.pending == s.k.pending + {d}
    ensures forall g :: g in s'.k.owned.link ==> g == f || g in s.k.owned.link
    ensures forall v :: s'.k.Look(v) == WaitLook(s.k, d, f, WAIT_FOREVER, v)
  {
    hide K.Kernel.Look, MutexesOk, Placed, Sane, P.Inv, Leads, K.Wait, OnlyWaiter, Lent, BlockLook;
    var u := s.k.current[d];
    P.CallerReadySane(s);
    FreshQueue(s.k, f, u);
    NotForlorn(s.k, f, t);
    P.SvcWaitKeeps(s, d);
    Then(s0, run, s, SvcWait(d));
    run', s' := run + [SvcWait(d)], P.SvcWait(s, d);
    WaitStep(s.k, d, f, t, WAIT_FOREVER);
    WaitLookPlaces(s.k, d, f, WAIT_FOREVER);
    OnlyOneWaits(s.k, s'.k, d, f);
    Seen(s'.k, u);
    OwnerEven(t);
  }

  lemma NotForlorn(k: K.Kernel, f: FutexId, t: TaskId)
    requires f in k.futexes && k.futexes[f].value == t && t in k.tasks
    ensures !P.Forlorn(k, f, t) && ShouldBlock(k.futexes[f], t)
  {}

  lemma OnlyOneWaits(k: K.Kernel, k': K.Kernel, c: CoreId, f: FutexId)
    requires Calls(k, c) && f in k.futexes && OnlyWaiter(k, f, k.current[c])
    requires forall u :: k'.Look(u) == WaitLook(k, c, f, WAIT_FOREVER, u)
    requires forall u :: u != k.current[c] ==> SamePlace(k.Look(u), WaitLook(k, c, f, WAIT_FOREVER, u))
    ensures OnlyWaiter(k', f, k.current[c])
  {
    hide K.Kernel.Look, Sane, WaitLook;
  }

  /** The thread on core `c` cancels the wait of `u`. */
  lemma Cancels(s0: P.System, run: seq<Action>, s: P.System, c: CoreId, f: FutexId, u: TaskId)
    returns (run': seq<Action>, s': P.System)
    requires Leads(s0, run, s) && P.Inv(s) && Resting(s, c) && IsMutex(s.k, f)
    requires OnlyWaiter(s.k, f, u) && u in s.k.tasks && s.k.tasks[u].state.Blocked?
    ensures Leads(s0, run', s') && P.Inv(s')
    ensures s'.threads == s.threads && s'.recursive == s.recursive
    ensures s'.k.current == s.k.current && s'.k.futexes == s.k.futexes && s'.k.Waiters(f) == []
    ensures s'.k.pending == s.k.pending + {c} && s'.k.owned == s.k.owned
    ensures s.k.Look(u).Some? && s'.k.Look(u) == Some(Returning(Readied(s.k.Look(u).value), -ECANCELED).(timer := None))
    ensures forall v :: v != u ==> s'.k.Look(v) == s.k.Look(v)
  {
    hide K.Kernel.Look, MutexesOk, Placed, Sane, P.Inv, Leads, K.Resume, OnlyWaiter;
    var a := Service(c, Resume(u));
    P.Running(s, c);
    P.CallerReadySane(s);
    Then(s0, run, s, a);
    ApplyKeeps(s, a);
    run', s' := run + [a], Apply(s, a).0;
    P.CallerReadySane(s');
    Seen(s.k, u);
    ResumeStep(s.k, c, u);
    Cancelled(s.k, s'.k, f, u);
    NoWaiter(s'.k, f, u);
    SameThreads(s, s'.k);
  }

  lemma Cancelled(k: K.Kernel, k': K.Kernel, f: FutexId, u: TaskId)
    requires OnlyWaiter(k, f, u) && k'.Look(u).Some? && k'.Look(u).value.link == Some(Q.ReadyQueue)
    requires forall v :: v != u ==> k'.Look(v) == k.Look(v)
    ensures OnlyWaiter(k', f, u)
  {
    hide K.Kernel.Look;
  }

  lemma SameThreads(s: P.System, k': K.Kernel)
    requires P.Inv(s) && forall v :: k'.Look(v).Some? <==> s.k.Look(v).Some?
    ensures P.Follow(s, k').threads == s.threads
  {
    hide K.Kernel.Look, MutexesOk;
    forall v ensures v in k'.tasks <==> v in s.threads {
      P.Alive(s, v);
      Seen(k', v);
    }
  }

  /** It begins to release a contended mutex and is about to wake whoever waits for it. */
  lemma Lets(s0: P.System, run: seq<Action>, s: P.System, c: CoreId, f: FutexId) returns (run': seq<Action>, s': P.System)
    requires Leads(s0, run, s) && P.Inv(s) && Resting(s, c) && IsMutex(s.k, f) && f !in s.recursive
    requires s.k.futexes[f].value == (s.k.current[c] as int) + 1 && f in s.threads[s.k.current[c]].held
    ensures Leads(s0, run', s') && P.Inv(s') && s' == s.Goto(s.k.current[c], P.CallWake(f))
    ensures Enabled(s', SvcWake(c)) && Asserted(s', SvcWake(c)) && Names(s'.k, f, s.k.current[c])
  {
    hide K.Kernel.Look, MutexesOk, Placed, Sane, P.Inv, Leads, K.Wake;
    var a, b := Release(c, f), ReadWord(c);
    NamedByFlag(s.k, f, s.k.current[c]);
    Then(s0, run, s, a);
    ApplyKeeps(s, a);
    var s1 := Apply(s, a).0;
    Then(s0, run + [a], s1, b);
    ApplyKeeps(s1, b);
    run', s' := run + [a] + [b], Apply(s1, b).0;
    P.SvcWakeKeeps(s', c);
  }

  /** It releases a contended mutex that nobody waits for any more. */
  lemma Releases(s0: P.System, run: seq<Action>, s: P.System, c: CoreId, f: FutexId) returns (run': seq<Action>, s': P.System)
    requires Leads(s0, run, s) && P.Inv(s) && Resting(s, c) && IsMutex(s.k, f) && f !in s.recursive
    requires var t := s.k.current[c]; s.k.futexes[f].value == (t as int) + 1 && s.threads[t].held == multiset{f}
    requires s.k.Waiters(f) == []
    ensures Leads(s0, run', s') && P.Inv(s')
    ensures var t := s.k.current[c];
            && s'.threads == s.threads[t := P.Thread(P.Idle, multiset{})]
            && s'.k.current == s.k.current && IsMutex(s'.k, f) && s'.k.futexes[f].kind == s.k.futexes[f].kind
            && Names(s'.k, f, t) && f in s'.stale
  {
    hide K.Kernel.Look, MutexesOk, Placed, Sane, P.Inv, Leads, K.Wake;
    var s1;
    run', s1 := Lets(s0, run, s, c, f);
    Then(s0, run', s1, SvcWake(c));
    P.SvcWakeKeeps(s1, c);
    P.CallWakeOk(s1, c);
    OwnerWakes(s1.k, c, f, false);
    run', s' := run' + [SvcWake(c)], P.SvcWake(s1, c).0;
    assert multiset{f} - multiset{f} == multiset{};
  }

  lemma NamedByFlag(k: K.Kernel, f: FutexId, t: TaskId)
    ensures IsMutex(k, f) && k.futexes[f].value == (t as int) + 1 ==> Names(k, f, t)
    ensures IsMutex(k, f) && k.futexes[f].value == t ==> Names(k, f, t)
  {}

  /** And exits. */
  lemma Exits(s0: P.System, run: seq<Action>, s: P.System, c: CoreId, f: FutexId) returns (run': seq<Action>, s': P.System)
    requires Leads(s0, run, s) && P.Inv(s) && Resting(s, c) && s.threads[s.k.current[c]].held == multiset{} && IsMutex(s.k, f)
    ensures Leads(s0, run', s') && P.Inv(s')
    ensures var t := s.k.current[c];
            && s'.k.futexes == s.k.futexes && s'.stale == s.stale && t !in s'.k.tasks && t !in s'.threads
            && s'.k.current == s.k.current - {c}
            && forall u :: u in s.threads && u != t ==> u in s'.threads && s'.threads[u] == s.threads[u]
  {
    hide K.Kernel.Look, MutexesOk, Placed, Sane, P.Inv, Leads, K.Terminate;
    var t := s.k.current[c];
    var a := Service(c, Terminate(t));
    P.Running(s, c);
    P.CallerReadySane(s);
    Then(s0, run, s, a);
    ApplyKeeps(s, a);
    run', s' := run + [a], Apply(s, a).0;
    Seen(s.k, t);
    TerminateStep(s.k, c, t);
    forall u ensures (u in s.threads && u != t ==> u in s'.threads) && (u == t ==> u !in s'.k.tasks) {
      P.Alive(s, u);
      Seen(s'.k, u);
    }
  }

  /** Three cores run three idle threads, and `f` is a mutex with priority inheritance. */
  predicate Cast(s: P.System, f: FutexId, c: CoreId, d: CoreId, e: CoreId) {
    && Resting(s, c) && Resting(s, d) && Resting(s, e) && c != d && c != e && d != e
    && f in s.k.futexes && s.k.futexes[f].kind == Mutex(true) && f !in s.recursive
  }

  /** The first thread has the mutex, whose word is contended, and nobody waits any more. */
  predicate Deserted(s0: P.System, s: P.System, f: FutexId, c: CoreId, e: CoreId) {
    && Resting(s, c) && Resting(s, e) && Resting(s0, c) && Resting(s0, e)
    && s.k.current[c] == s0.k.current[c] && s.k.current[e] == s0.k.current[e] && s.k.current[c] != s.k.current[e]
    && f in s.k.futexes && s.k.futexes[f].kind == Mutex(true) && f !in s.recursive
    && s.k.futexes[f].value == (s.k.current[c] as int) + 1 && s.threads[s.k.current[c]].held == multiset{f}
    && s.k.Waiters(f) == []
  }

  /** The first thread has the mutex and the second one is about to wait for it. */
  predicate Sought(s0: P.System, s: P.System, f: FutexId, c: CoreId, d: CoreId, e: CoreId) {
    && Runs(s, d) && Cast(s0, f, c, d, e) && s.k.current == s0.k.current
    && f in s.k.futexes && s.k.futexes[f].kind == Mutex(true) && f !in s.recursive
    && var t, u, v := s.k.current[c], s.k.current[d], s.k.current[e];
       && t != u && t != v && u != v && t in s.k.tasks && t in s.threads && v in s.threads
       && s.k.futexes[f].value == t && s.k.Waiters(f) == []
       && s.threads[t] == P.Thread(P.Idle, multiset{f}) && s.threads[v].pc.Idle?
       && PcAt(s, d) == P.CallWait(f, WAIT_FOREVER, t)
  }

  lemma Seeks(s0: P.System, f: FutexId, c: CoreId, d: CoreId, e: CoreId) returns (run: seq<Action>, s: P.System)
    requires Start(s0) && Cast(s0, f, c, d, e)
    ensures Leads(s0, run, s) && P.Inv(s) && Sought(s0, s, f, c, d, e) && s.k == SetWord(s0.k, f, s0.k.current[c])
  {
    hide K.Kernel.Look, MutexesOk, Placed, Sane, P.Inv, P.PcOk, P.HoldOk;
    StartInv(s0);
    P.CallerReadySane(s0);
    var t, u := s0.k.current[c], s0.k.current[d];
    Apart(s0.k, c, d, e);
    P.Alive(s0, t);
    Seen(s0.k, t);
    var s1;
    run, s1 := Takes(s0, [], s0, c, f);
    NamedByFlag(s1.k, f, t);
    NamesOne(s1.k, f, t, u);
    hide Start, Leads, Names;
    run, s := Wants(s0, run, s1, d, f);
    assert multiset{} + multiset{f} == multiset{f};
  }

  /** The second thread waits and has its wait cancelled. */
  lemma Deserts(s0: P.System, f: FutexId, c: CoreId, d: CoreId, e: CoreId) returns (run: seq<Action>, s: P.System)
    requires Start(s0) && Cast(s0, f, c, d, e)
    ensures Leads(s0, run, s) && P.Inv(s) && Deserted(s0, s, f, c, e)
  {
    hide K.Kernel.Look, MutexesOk, Placed, Sane, P.Inv, OnlyWaiter, Start, Leads;
    var s1, s2;
    run, s1 := Seeks(s0, f, c, d, e);
    var u := s1.k.current[d];
    run, s2 := Waits(s0, run, s1, d, f, s1.k.current[c]);
    run, s := Cancels(s0, run, s2, c, f, u);
  }

  lemma Apart(k: K.Kernel, c: CoreId, d: CoreId, e: CoreId)
    requires Placed(k) && c in k.current && d in k.current && e in k.current && c != d && c != e && d != e
    ensures k.current[c] != k.current[d] && k.current[c] != k.current[e] && k.current[d] != k.current[e]
  {
    hide K.Kernel.Look, Placed;
    OnlyOn(k, k.current[c]);
    OnlyOn(k, k.current[d]);
  }

  /**
   From every start with such a cast: once the first thread has released the mutex as well, its word names that thread,
   which holds nothing.
   */
  lemma Sticks(s0: P.System, f: FutexId, c: CoreId, d: CoreId, e: CoreId) returns (run: seq<Action>, s: P.System)
    requires Start(s0) && Cast(s0, f, c, d, e)
    ensures Leads(s0, run, s) && P.Inv(s)
    ensures Resting(s, c) && s.k.current[c] == s0.k.current[c] && s.threads[s.k.current[c]].held == multiset{}
    ensures Names(s.k, f, s.k.current[c]) && f in s.stale && s.k.futexes[f].kind == Mutex(true)
    ensures Resting(s, e) && s.k.current[e] == s0.k.current[e] != s.k.current[c]
  {
    hide MutexesOk, Placed, Sane, P.Inv, OnlyWaiter, Start, Leads;
    var s1;
    run, s1 := Deserts(s0, f, c, d, e);
    run, s := Releases(s0, run, s1, c, f);
  }

  /**
   If the first thread then exits, the next one that waits for the mutex runs into the assertion about the owner: every
   step of the run is allowed, and the last one fails.
   */
  lemma FailsForDead(s0: P.System, f: FutexId, c: CoreId, d: CoreId, e: CoreId) returns (run: seq<Action>, s: P.System)
    requires Start(s0) && Cast(s0, f, c, d, e)
    ensures Leads(s0, run, s) && Enabled(s, SvcWait(e)) && WaitsForDead(s, SvcWait(e)) && !Asserted(s, SvcWait(e))
  {
    hide K.Kernel.Look, MutexesOk, Placed, Sane, P.Inv, Leads, Start;
    var s1, s2;
    run, s1 := Sticks(s0, f, c, d, e);
    var t := s1.k.current[c];
    NamesOne(s1.k, f, t, s1.k.current[e]);
    run, s2 := Exits(s0, run, s1, c, f);
    run, s := Wants(s0, run, s2, e, f);
    FailsExactly(s, SvcWait(e));
  }

  /** Three tasks that run on three cores, the second one with priority `p`, and one mutex. */
  function Stage(p: nat): K.Kernel {
    K.Kernel(3,
      Q.Queues(map[2 := Q.Entry(8, None, 0), 4 := Q.Entry(p, None, 0), 6 := Q.Entry(8, None, 0)], map[], 1),
      Tm.Timers(map[], [], UINT_MAX), Ow.Owned(map[], map[]),
      map[2 := Task(Running, 0, 8, 0, None, false), 4 := Task(Running, 1, p, 0, None, false), 6 := Task(Running, 2, 8, 0, None, false)],
      map[0 := Futex(Mutex(true), 0)], map[0 := 2, 1 := 4, 2 := 6], map[], 0, {})
  }

  lemma StageSane(p: nat)
    ensures Sane(Stage(p))
  {
    var k := Stage(p);
    assert forall id :: k.queues.List(id) == [];
    assert forall t :: k.owned.List(t) == [];
  }

  lemma StageSet(p: nat)
    ensures Placed(Stage(p))
  {
    hide Sane;
    var k := Stage(p);
    StageSane(p);
    forall t ensures At(k, t) {}
    forall o | o in k.current ensures Occupied(k, o) {}
  }

  function Staged(p: nat): P.System {
    var idle := P.Thread(P.Idle, multiset{});
    P.System(Stage(p), map[2 := idle, 4 := idle, 6 := idle], {}, map[], {})
  }

  lemma StageStarts(p: nat)
    ensures Start(Staged(p)) && Cast(Staged(p), 0, 0, 1, 2)
  {
    hide Placed;
    StageSet(p);
  }

  /** Such a start exists, so the assertion does fail on some run from some start. */
  lemma SomeRunFails() returns (s0: P.System, run: seq<Action>, s: P.System)
    ensures Start(s0) && Leads(s0, run, s) && Enabled(s, SvcWait(2)) && !Asserted(s, SvcWait(2))
  {
    hide Leads, Enabled, Asserted, Start, Cast, WaitsForDead;
    StageStarts(8);
    s0 := Staged(8);
    run, s := FailsForDead(s0, 0, 0, 1, 2);
  }
}
