/** The reference clock over whole runs. */
module Clock {
  import opened Types
  import opened K = Kernel
  import opened Steps
  import opened Placement
  import opened MutexKernel
  import opened Inheritance
  import opened Dispatching
  import opened MutexRuns
  import opened SwitchRuns
  import opened TimeoutRuns
  import P = MutexProtocol

  /** How many of the steps are ticks of core 0. */
  function TicksIn(steps: seq<Action>): nat {
    if steps == [] then 0 else (if steps[0].Tick? && steps[0].core == 0 then 1 else 0) + TicksIn(steps[1..])
  }

  lemma TickClock(k: K.Kernel, c: CoreId, sliced: bool)
    ensures K.Tick(k, c, sliced).Now() == if c == 0 then (k.Now() + 1) % WORD else k.Now()
  {
    hide Sane;
  }

  /** A tick of core 0 moves the clock by one; nothing else moves it, ticks of other cores included. */
  lemma StepClock(s: P.System, a: Action)
    requires P.Inv(s) && Enabled(s, a) && Asserted(s, a)
    ensures Apply(s, a).0.k.Now() == if a.Tick? && a.core == 0 then (s.k.Now() + 1) % WORD else s.k.Now()
  {
    hide K.Kernel.Look, MutexesOk, Placed, Sane, P.Inv, Serve, P.SvcWait, P.SvcWake, P.Forlorn, OwnerLive, K.Tick, K.Switch;
    P.CallerReadySane(s);
    match a
    case Tick(c, sliced) => TickClock(s.k, c, sliced);
    case Switch(c, wakes, corrupt, started) => SwitchPicks(s.k, c, wakes, corrupt, started, 2, 0);
    case _ =>
      if Local(a) { LocalLooks(s, a); } else { CallPreempts(s, a); }
  }

  /** On every run: the clock has moved by the number of ticks of core 0, modulo 2^32. */
  lemma {:induction false} ClockOnRun(s: P.System, steps: seq<Action>, s': P.System)
    requires P.Inv(s) && Leads(s, steps, s') && s.k.Now() < WORD
    ensures P.Inv(s') && s'.k.Now() == (s.k.Now() + TicksIn(steps)) % WORD
    decreases |steps|
  {
    hide P.Inv, Enabled, Asserted, Apply, K.Kernel.Now;
    if steps != [] {
      ApplyKeeps(s, steps[0]);
      StepClock(s, steps[0]);
      ClockOnRun(Apply(s, steps[0]).0, steps[1..], s');
    }
  }

  lemma {:induction false} WaitingLeads(s: P.System, steps: seq<Action>, s': P.System, t: TaskId, d: Option<nat>)
    requires LeadsWaiting(s, steps, s', t, d)
    ensures Leads(s, steps, s')
    decreases |steps|
  {
    hide Enabled, Asserted, Apply, Waiting;
    if steps != [] { WaitingLeads(Apply(s, steps[0]).0, steps[1..], s', t, d); }
  }

  /** A wait that ends with a timeout has lasted for as many ticks of core 0 as the caller has asked for. */
  lemma LastsItsTicks(s0: P.System, before: seq<Action>, s: P.System, a: Action, c: CoreId, delay: nat,
                      steps: seq<Action>, s': P.System, b: Action)
    requires Start(s0) && Leads(s0, before, s) && Enabled(s, a) && Asserted(s, a)
    requires StartsWait(s, a, c, delay) && delay < WAIT_FOREVER && s.k.Now() + delay < WORD
    requires LeadsWaiting(Apply(s, a).0, steps, s', s.k.current[c], Some(s.k.Now() + delay))
    requires Enabled(s', b) && Asserted(s', b) && Over(Apply(s', b).0.k, s.k.current[c], -ETIMEDOUT)
    ensures TicksIn(steps) >= delay
  {
    hide P.Inv, Enabled, Asserted, Apply, Start, Leads, LeadsWaiting, NeverMissed, Continues, Waiting, Over, Switches, K.Kernel.Now;
    StartInv(s0);
    RunsKeep(s0, before, s);
    ApplyKeeps(s, a);
    StepClock(s, a);
    TimedWait(s0, before, s, a, c, delay, steps, s', b);
    var d := Some(s.k.Now() + delay);
    WaitingLeads(Apply(s, a).0, steps, s', s.k.current[c], d);
    ClockOnRun(Apply(s, a).0, steps, s');
    NoTick(s.k.Now(), delay, TicksIn(steps));
  }

  lemma NoTick(now: nat, delay: nat, n: nat)
    requires now + delay < WORD && now + delay <= (now + n) % WORD
    ensures n >= delay
  {
    assert now + n < WORD ==> (now + n) % WORD == now + n;
  }
}
