/**
 Condition variables: a 32-bit sequence number is the futex word, a waiter samples it before it gives up the mutex
 and sleeps only while it is unchanged, and signal and broadcast add one to it before they wake.
 */
module Condition {
  import opened Types

  /** `n` is the number of signals before the sample, of which the waiter knows the low 32 bits only. */
  datatype Pc =
    | Idle
    | Sampled(n: nat)                // has read the sequence, still has to call the kernel
    | Blocked(n: nat)
    | Signalled(upTo: nat, all: bool)  // has made the `upTo`th addition, still has to wake

  /** `total` counts all signals ever; `finished` is the count of the last broadcast whose wake is done. */
  datatype State = State(total: nat, pcs: seq<Pc>, finished: nat)

  function Word(n: nat): nat { n % WORD }

  datatype Action =
    | Sample(i: nat)
    | SvcWait(i: nat)
    | GiveUp(i: nat)
    | Signal(i: nat, all: bool)
    | SvcWake(i: nat, first: nat)  // `first` is the waiter at the head of the queue, if there is one

  /** Who sleeps on the futex. */
  function Sleepers(s: State): set<nat> {
    set j: nat | j < |s.pcs| && s.pcs[j].Blocked?
  }

  predicate Enabled(s: State, a: Action) {
    match a
    case Sample(i) => i < |s.pcs| && s.pcs[i].Idle?
    case SvcWait(i) => i < |s.pcs| && s.pcs[i].Sampled?
    case GiveUp(i) => i < |s.pcs| && s.pcs[i].Blocked?
    case Signal(i, _) => i < |s.pcs| && s.pcs[i].Idle?
    case SvcWake(i, first) => i < |s.pcs| && s.pcs[i].Signalled? && (Sleepers(s) != {} ==> first in Sleepers(s))
  }

  function WakeAll(pcs: seq<Pc>): (r: seq<Pc>)
    ensures |r| == |pcs| && forall i :: 0 <= i < |r| ==> r[i] == if pcs[i].Blocked? then Idle else pcs[i]
  {
    seq(|pcs|, (i: nat) requires i < |pcs| => if pcs[i].Blocked? then Idle else pcs[i])
  }

  function Step(s: State, a: Action): State
    requires Enabled(s, a)
  {
    match a
    case Sample(i) => s.(pcs := s.pcs[i := Sampled(s.total)])
    case SvcWait(i) => s.(pcs := s.pcs[i := if Word(s.total) == Word(s.pcs[i].n) then Blocked(s.pcs[i].n) else Idle])
    case GiveUp(i) => s.(pcs := s.pcs[i := Idle])
    case Signal(i, all) => s.(total := s.total + 1, pcs := s.pcs[i := Signalled(s.total + 1, all)])
    case SvcWake(i, first) =>
      var upTo := s.pcs[i].upTo;
      if s.pcs[i].all then
        State(s.total, WakeAll(s.pcs)[i := Idle], if upTo > s.finished then upTo else s.finished)
      else if first < |s.pcs| && s.pcs[first].Blocked? then s.(pcs := s.pcs[i := Idle][first := Idle])
      else s.(pcs := s.pcs[i := Idle])
  }

  /** A waiter has slept through 2^32 signals between its sample and its call. */
  predicate Overtaken(s: State, i: nat) {
    i < |s.pcs| && s.pcs[i].Sampled? && s.total >= s.pcs[i].n + WORD
  }

  /** Nobody sleeps who sampled before a broadcast that is done. */
  ghost predicate Inv(s: State) {
    && s.finished <= s.total
    && (forall i :: 0 <= i < |s.pcs| ==>
          match s.pcs[i]
          case Idle => true
          case Sampled(n) => n <= s.total
          case Blocked(n) => s.finished <= n <= s.total
          case Signalled(upTo, _) => upTo <= s.total)
  }

  /** The waiter sleeps exactly when the number of signals since its sample is a multiple of 2^32. */
  lemma SleepsExactly(s: State, i: nat)
    requires Inv(s) && Enabled(s, SvcWait(i))
    ensures Step(s, SvcWait(i)).pcs[i].Blocked? <==> (s.total - s.pcs[i].n) % WORD == 0
  {
    var n := s.pcs[i].n;
    SameWord(n, s.total - n);
  }

  lemma SameWord(n: nat, d: nat)
    ensures Word(n + d) == Word(n) <==> d % WORD == 0
  {
    assert n == n / WORD * WORD + n % WORD;
    assert d == d / WORD * WORD + d % WORD;
    assert n + d == (n / WORD + d / WORD) * WORD + (n % WORD + d % WORD);
  }

  lemma StepKeeps(s: State, a: Action)
    requires Inv(s) && Enabled(s, a) && (a.SvcWait? ==> !Overtaken(s, a.i))
    ensures Inv(Step(s, a))
  {
    if a.SvcWait? { SleepsExactly(s, a.i); }
  }

  /**
   A signal wakes the waiter at the head of the queue and nobody else, and wakes somebody if anybody sleeps; a broadcast
   wakes everybody; and nobody else is touched.
   */
  lemma WakesExactly(s: State, i: nat, first: nat, j: nat)
    requires Enabled(s, SvcWake(i, first)) && j < |s.pcs| && j != i
    ensures var s' := Step(s, SvcWake(i, first));
            && |s'.pcs| == |s.pcs| && s'.pcs[i].Idle? && s'.total == s.total
            && (s.pcs[j].Blocked? && (s.pcs[i].all || j == first) ==> s'.pcs[j].Idle?)
            && (!(s.pcs[j].Blocked? && (s.pcs[i].all || j == first)) ==> s'.pcs[j] == s.pcs[j])
            && |Sleepers(s')| == (if s.pcs[i].all || Sleepers(s) == {} then 0 else |Sleepers(s)| - 1)
  {
    var s' := Step(s, SvcWake(i, first));
    if s.pcs[i].all || Sleepers(s) == {} {
      assert Sleepers(s') == {};
    } else {
      assert Sleepers(s') == Sleepers(s) - {first};
    }
  }

  /** A run on which nobody is overtaken by 2^32 signals between sample and call. */
  ghost predicate Leads(s: State, run: seq<Action>, s': State)
    decreases |run|
  {
    if run == [] then s' == s
    else Enabled(s, run[0]) && (run[0].SvcWait? ==> !Overtaken(s, run[0].i)) && Leads(Step(s, run[0]), run[1..], s')
  }

  lemma {:induction false} RunKeeps(s: State, run: seq<Action>, s': State)
    requires Inv(s) && Leads(s, run, s')
    ensures Inv(s')
    decreases |run|
  {
    hide Inv, Step, Enabled, Overtaken;
    if run != [] {
      StepKeeps(s, run[0]);
      RunKeeps(Step(s, run[0]), run[1..], s');
    }
  }

  /**
   Broadcast reaches everybody: once the wake of a broadcast is done, no thread that sampled the sequence before
   the broadcast is blocked, and none that still has to call the kernel will block, unless 2^32 signals overtake it.
   */
  lemma BroadcastReachesAll(s0: State, run: seq<Action>, s: State, i: nat)
    requires s0.finished <= s0.total && (forall j :: 0 <= j < |s0.pcs| ==> s0.pcs[j].Idle?) && Leads(s0, run, s) && i < |s.pcs|
    ensures s.pcs[i].Blocked? ==> s.pcs[i].n >= s.finished
    ensures s.pcs[i].Sampled? && s.pcs[i].n < s.finished && !Overtaken(s, i) ==> Step(s, SvcWait(i)).pcs[i].Idle?
  {
    hide Leads;
    RunKeeps(s0, run, s);
    if s.pcs[i].Sampled? { SleepsExactly(s, i); }
  }

  // ----- overtaken waiters

  /** Any steps, however many signals overtake a waiter. */
  ghost predicate LeadsAnyhow(s: State, run: seq<Action>, s': State)
    decreases |run|
  {
    if run == [] then s' == s else Enabled(s, run[0]) && LeadsAnyhow(Step(s, run[0]), run[1..], s')
  }

  /** `i` broadcasts `n` times. */
  lemma {:induction false} Broadcasts(s: State, i: nat, n: nat) returns (run: seq<Action>, s': State)
    requires i < |s.pcs| && s.pcs[i].Idle? && s.finished <= s.total && forall k :: 0 <= k < |s.pcs| ==> !s.pcs[k].Blocked?
    ensures LeadsAnyhow(s, run, s') && s'.total == s.total + n && s'.pcs == s.pcs
    ensures s'.finished == if n == 0 then s.finished else s'.total
    decreases n
  {
    if n == 0 {
      run, s' := [], s;
    } else {
      var s1 := Step(s, Signal(i, true));
      var s2 := Step(s1, SvcWake(i, 0));
      assert s2.pcs == s.pcs;
      run, s' := Broadcasts(s2, i, n - 1);
      assert LeadsAnyhow(s1, [SvcWake(i, 0)] + run, s') by { assert ([SvcWake(i, 0)] + run)[1..] == run; }
      run := [Signal(i, true)] + ([SvcWake(i, 0)] + run);
      assert run[1..] == [SvcWake(i, 0)] + run[2..];
    }
  }

  /**
   From every idle start, for every `n`: one thread samples, `n` broadcasts follow, and the thread calls the kernel. It
   sleeps through all of them if and only if `n` is a multiple of 2^32; the smallest such run has 2^32 broadcasts.
   */
  lemma OvertakenSleeps(s0: State, i: nat, j: nat, n: nat) returns (run: seq<Action>, s: State)
    requires s0.finished <= s0.total && (forall k :: 0 <= k < |s0.pcs| ==> s0.pcs[k].Idle?)
    requires i < |s0.pcs| && j < |s0.pcs| && i != j && n > 0
    ensures LeadsAnyhow(s0, run, s) && Enabled(s, SvcWait(j)) && s.finished == s.total == s.pcs[j].n + n
    ensures Step(s, SvcWait(j)).pcs[j].Blocked? <==> n % WORD == 0
  {
    var s1 := Step(s0, Sample(j));
    run, s := Broadcasts(s1, i, n);
    run := [Sample(j)] + run;
    SameWord(s.pcs[j].n, n);
  }

  // ----- deadlines

  /** Unsigned 64-bit arithmetic. */
  const LONG_WORD: nat := 0x1_0000_0000_0000_0000

  /** The timeout in ticks that the timed wait and the timed lock pass on for a deadline, or none if they return at once. */
  function TimeoutFor(ticks: nat, deadline: nat): Option<nat> {
    var left := (deadline - ticks) % LONG_WORD;
    if ticks < deadline || left >= UINT_MAX then None else Some(left)
  }

  /**
   A deadline that lies ahead is taken for one that has been missed: the calls wait if and only if the deadline is this
   very tick, and then with a timeout of 0.
   */
  lemma DeadlinesExactly(ticks: nat, deadline: nat)
    requires ticks < WORD && deadline < LONG_WORD
    ensures TimeoutFor(ticks, deadline).Some? <==> deadline == ticks
    ensures TimeoutFor(ticks, ticks) == Some(0)
  {
    if deadline < ticks {
      assert (deadline - ticks) % LONG_WORD == deadline - ticks + LONG_WORD;
    }
  }
}
