/**
 Event flags over a futex without tracking: waiters sleep until any or all of their flags are set, setters wake
 everybody, from a thread at once and from an interrupt handler through a deferred wake. One step is one atomic
 access of the flags or one service call.
 */
module EventFlags {
  import D = DeferredWake

  /** A word of flags, as the set of its bits. */
  type Flags = set<nat>

  /** `all` is osFlagsWaitAll, `keep` is osFlagsNoClear, `polls` a zero timeout. */
  datatype Want = Want(flags: Flags, all: bool, keep: bool, polls: bool)

  predicate Satisfied(w: Want, flags: Flags) {
    if w.all then w.flags <= flags else flags * w.flags != {}
  }

  /** What taking the flags leaves of them. */
  function Taken(w: Want, flags: Flags): Flags {
    if w.keep then flags else flags - w.flags
  }

  datatype Pc =
    | Idle
    | Loading(want: Want)                 // about to read the flags
    | Taking(want: Want)                  // has found them set, about to clear them
    | CallWait(want: Want, seen: Flags)    // has not, about to wait for a change of `seen`
    | Blocked(want: Want)
    | Waking                              // has set new flags, about to wake everybody
    | Posting                             // the same in an interrupt handler: about to post the wake

  /** What a wait returns: the flags before it took its own, or an error. */
  datatype Answer = Value(flags: Flags) | ErrorResource | ErrorTimeout

  /** `posted`: a deferred wake of this futex sits in a slot; `answers`: what the last wait of each thread has returned. */
  datatype State = State(flags: Flags, pcs: seq<Pc>, posted: bool, answers: map<nat, Answer>)

  datatype Action =
    | Wait(i: nat, want: Want)
    | Set(i: nat, flags: Flags, isr: bool)
    | Clear(flags: Flags)
    | Go(i: nat)
    | GiveUp(i: nat)                      // timeout, or a wait broken by resume
    | Post(i: nat, room: bool)            // `room`: some slot is empty
    | Deferred                            // the context switch takes the posted wake

  predicate Enabled(s: State, a: Action) {
    match a
    case Wait(i, _) => i < |s.pcs| && s.pcs[i].Idle?
    case Set(i, _, _) => i < |s.pcs| && s.pcs[i].Idle?
    case Clear(_) => true
    case Go(i) => i < |s.pcs| && (s.pcs[i].Loading? || s.pcs[i].Taking? || s.pcs[i].CallWait? || s.pcs[i].Waking?)
    case GiveUp(i) => i < |s.pcs| && s.pcs[i].Blocked?
    case Post(i, _) => i < |s.pcs| && s.pcs[i].Posting?
    case Deferred => s.posted
  }

  /** Everybody who is blocked returns from his wait and looks again. */
  function WakeAll(pcs: seq<Pc>): (r: seq<Pc>)
    ensures |r| == |pcs| && forall i :: 0 <= i < |r| ==> r[i] == if pcs[i].Blocked? then Loading(pcs[i].want) else pcs[i]
  {
    seq(|pcs|, (i: nat) requires i < |pcs| => if pcs[i].Blocked? then Loading(pcs[i].want) else pcs[i])
  }

  function Step(s: State, a: Action): State
    requires Enabled(s, a)
  {
    match a
    case Wait(i, want) => s.(pcs := s.pcs[i := Loading(want)])
    case Set(i, flags, isr) =>
      s.(flags := s.flags + flags,
         pcs := if flags <= s.flags then s.pcs else s.pcs[i := if isr then Posting else Waking])
    case Clear(flags) => s.(flags := s.flags - flags)
    case Go(i) =>
      (match s.pcs[i]
       case Loading(want) =>
         if Satisfied(want, s.flags) then s.(pcs := s.pcs[i := Taking(want)])
         else if want.polls then s.(pcs := s.pcs[i := Idle], answers := s.answers[i := ErrorResource])
         else s.(pcs := s.pcs[i := CallWait(want, s.flags)])
       case Taking(want) =>
         s.(flags := Taken(want, s.flags), pcs := s.pcs[i := Idle], answers := s.answers[i := Value(s.flags)])
       case CallWait(want, seen) => s.(pcs := s.pcs[i := if s.flags == seen then Blocked(want) else Loading(want)])
       case Waking => s.(pcs := WakeAll(s.pcs)[i := Idle])
       case _ => s)
    case GiveUp(i) => s.(pcs := s.pcs[i := Idle], answers := s.answers[i := ErrorTimeout])
    case Post(i, room) => s.(posted := s.posted || room, pcs := s.pcs[i := Idle])
    case Deferred => s.(pcs := WakeAll(s.pcs), posted := false)
  }

  /** A wake is on its way: a setter is about to wake or to post, or a posted wake waits for its switch. */
  predicate WakeComing(s: State) {
    s.posted || exists i :: 0 <= i < |s.pcs| && (s.pcs[i].Waking? || s.pcs[i].Posting?)
  }

  ghost predicate Inv(s: State) {
    && (forall i :: 0 <= i < |s.pcs| && s.pcs[i].CallWait? ==> !Satisfied(s.pcs[i].want, s.pcs[i].seen))
    && (forall i :: 0 <= i < |s.pcs| && s.pcs[i].Blocked? && Satisfied(s.pcs[i].want, s.flags) ==> WakeComing(s))
  }

  lemma StillComing(s: State, s': State, i: nat)
    requires i < |s.pcs| && |s'.pcs| == |s.pcs| && s'.posted == s.posted && !s.pcs[i].Waking? && !s.pcs[i].Posting?
    requires forall j :: 0 <= j < |s.pcs| && j != i ==> s'.pcs[j] == s.pcs[j]
    ensures WakeComing(s) ==> WakeComing(s')
  {
    if WakeComing(s) && !s.posted {
      var j :| 0 <= j < |s.pcs| && (s.pcs[j].Waking? || s.pcs[j].Posting?);
      assert s'.pcs[j] == s.pcs[j];
    }
  }

  lemma GoKeeps(s: State, i: nat)
    requires Inv(s) && Enabled(s, Go(i))
    ensures Inv(Step(s, Go(i)))
  {
    var s' := Step(s, Go(i));
    if !s.pcs[i].Waking? {
      StillComing(s, s', i);
    }
  }

  lemma SetKeeps(s: State, i: nat, flags: Flags, isr: bool)
    requires Inv(s) && Enabled(s, Set(i, flags, isr))
    ensures Inv(Step(s, Set(i, flags, isr)))
  {
    var s' := Step(s, Set(i, flags, isr));
    if s'.pcs == s.pcs {
      StillComing(s, s', i);
    } else {
      assert s'.pcs[i].Waking? || s'.pcs[i].Posting?;
    }
  }

  /** Kept by every step, but by a post that finds neither an empty slot nor its wake in one. */
  lemma StepKeeps(s: State, a: Action)
    requires Inv(s) && Enabled(s, a) && (a.Post? ==> a.room || s.posted)
    ensures Inv(Step(s, a))
  {
    var s' := Step(s, a);
    match a
    case Wait(i, want) => StillComing(s, s', i);
    case Set(i, flags, isr) => SetKeeps(s, i, flags, isr);
    case Clear(flags) =>
    case Go(i) => GoKeeps(s, i);
    case GiveUp(i) => StillComing(s, s', i);
    case Post(i, room) =>
    case Deferred =>
  }

  ghost predicate Leads(s: State, run: seq<Action>, s': State)
    decreases |run|
  {
    if run == [] then s' == s
    else Enabled(s, run[0]) && (run[0].Post? ==> run[0].room || s.posted) && Leads(Step(s, run[0]), run[1..], s')
  }

  lemma {:induction false} RunKeeps(s: State, run: seq<Action>, s': State)
    requires Inv(s) && Leads(s, run, s')
    ensures Inv(s')
    decreases |run|
  {
    hide Inv, Step, Enabled;
    if run != [] {
      StepKeeps(s, run[0]);
      RunKeeps(Step(s, run[0]), run[1..], s');
    }
  }

  /**
   No lost wakeup: in every interleaving in which no deferred wake is refused for want of a slot, whoever is blocked
   waits for flags that are not set, unless a wake is on its way.
   */
  lemma NoLostWakeup(s0: State, run: seq<Action>, s: State, i: nat)
    requires (forall j :: 0 <= j < |s0.pcs| ==> s0.pcs[j].Idle?) && Leads(s0, run, s) && i < |s.pcs|
    ensures s.pcs[i].Blocked? && Satisfied(s.pcs[i].want, s.flags) ==> WakeComing(s)
  {
    hide Leads;
    RunKeeps(s0, run, s);
  }

  // ----- refused wakes

  /** Nobody else is about to wake or to post, and no wake is posted. */
  predicate LastHope(s: State, i: nat) {
    !s.posted && forall j :: 0 <= j < |s.pcs| && j != i ==> !s.pcs[j].Waking? && !s.pcs[j].Posting?
  }

  /** `j` sleeps although its flags are set. */
  predicate Oversleeps(s: State, j: nat) {
    j < |s.pcs| && s.pcs[j].Blocked? && Satisfied(s.pcs[j].want, s.flags)
  }

  /** Every slot of the core holds the wake of another futex: the guard of the refusal. */
  predicate SlotsTaken(d: D.State, w: D.Wake) {
    forall k :: 0 <= k < |d.slots| ==> d.slots[k] != 0 && d.slots[k] != w
  }

  /**
   The handler that has set flags posts the wake `w` of their futex into the slots of its core. The guarantee breaks if
   and only if all slots hold other wakes, no other wake is on its way, and somebody sleeps whose flags are set.
   */
  lemma RefusedWakeIsLost(s: State, i: nat, d: D.State, w: D.Wake)
    requires Inv(s) && i < |s.pcs| && s.pcs[i].Posting? && w != 0 && (s.posted <==> w in d.slots)
    ensures var (d', verdict) := D.Post(d, w); var s' := Step(s, Post(i, verdict == D.Stored));
            && (s'.posted <==> w in d'.slots)
            && (verdict == D.NoSpace <==> SlotsTaken(d, w))
            && (!Inv(s') <==> SlotsTaken(d, w) && LastHope(s, i) && exists j: nat :: Oversleeps(s, j))
  {
    var (d', verdict) := D.Post(d, w);
    var s' := Step(s, Post(i, verdict == D.Stored));
    D.RefusedExactly(d, w);
    SlotsAfter(d, w);
    assert forall j :: 0 <= j < |s.pcs| && j != i ==> s'.pcs[j] == s.pcs[j];
    if SlotsTaken(d, w) {
      if j: nat :| Oversleeps(s, j) && LastHope(s, i) {
        assert s'.pcs[j].Blocked? && !WakeComing(s');
      } else if !LastHope(s, i) {
        assert WakeComing(s');
      } else {
        forall k: nat | k < |s'.pcs| ensures !(s'.pcs[k].Blocked? && Satisfied(s'.pcs[k].want, s'.flags)) {
          assert !Oversleeps(s, k);
        }
      }
    } else {
      StepKeeps(s, Post(i, verdict == D.Stored));
    }
  }

  lemma SlotsAfter(d: D.State, w: D.Wake)
    requires w != 0
    ensures w in D.Post(d, w).0.slots <==> w in d.slots || D.Post(d, w).1 == D.Stored
    ensures SlotsTaken(d, w) ==> w !in d.slots
  {
    D.RefusedExactly(d, w);
  }

  /** A step that is neither a set of new flags nor the end of the wait of `j`. */
  predicate Unhelpful(s: State, a: Action, j: nat) {
    a != GiveUp(j) && (a.Set? ==> a.flags <= s.flags)
  }

  ghost predicate LeadsUnhelpfully(s: State, run: seq<Action>, s': State, j: nat)
    decreases |run|
  {
    if run == [] then s' == s
    else Enabled(s, run[0]) && Unhelpful(s, run[0], j) && LeadsUnhelpfully(Step(s, run[0]), run[1..], s', j)
  }

  /** The price of a lost wakeup: with no wake on its way, the waiter sleeps until somebody sets new flags or it gives up. */
  lemma {:induction false} SleepsOn(s: State, run: seq<Action>, s': State, j: nat)
    requires !WakeComing(s) && j < |s.pcs| && s.pcs[j].Blocked? && LeadsUnhelpfully(s, run, s', j)
    ensures !WakeComing(s') && |s'.pcs| == |s.pcs| && s'.pcs[j] == s.pcs[j]
    decreases |run|
  {
    if run != [] {
      var s1 := Step(s, run[0]);
      assert forall i :: 0 <= i < |s.pcs| ==> !s.pcs[i].Waking? && !s.pcs[i].Posting?;
      assert forall i :: 0 <= i < |s1.pcs| ==> !s1.pcs[i].Waking? && !s1.pcs[i].Posting?;
      SleepsOn(s1, run[1..], s', j);
    }
  }

  /** Any steps, refused posts included. */
  ghost predicate LeadsAnyhow(s: State, run: seq<Action>, s': State)
    decreases |run|
  {
    if run == [] then s' == s else Enabled(s, run[0]) && LeadsAnyhow(Step(s, run[0]), run[1..], s')
  }

  /** From every idle start: one thread waits for a flag, an interrupt handler sets it, and its wake is refused. */
  lemma LosesWakeup(s0: State, i: nat, j: nat, flag: nat) returns (run: seq<Action>, s: State)
    requires (forall k :: 0 <= k < |s0.pcs| ==> s0.pcs[k].Idle?) && !s0.posted && flag !in s0.flags
    requires i < |s0.pcs| && j < |s0.pcs| && i != j
    ensures LeadsAnyhow(s0, run, s) && Oversleeps(s, j) && !WakeComing(s)
  {
    var want := Want({flag}, true, false, false);
    var s1 := Step(s0, Wait(j, want));
    var s2 := Step(s1, Go(j));
    var s3 := Step(s2, Go(j));
    var s4 := Step(s3, Set(i, {flag}, true));
    s := Step(s4, Post(i, false));
    assert s.pcs[j] == Blocked(want) && forall k :: 0 <= k < |s.pcs| && k != j ==> s.pcs[k].Idle?;
    assert LeadsAnyhow(s4, [Post(i, false)], s);
    assert LeadsAnyhow(s3, [Set(i, {flag}, true), Post(i, false)], s);
    assert LeadsAnyhow(s2, [Go(j), Set(i, {flag}, true), Post(i, false)], s);
    assert LeadsAnyhow(s1, [Go(j), Go(j), Set(i, {flag}, true), Post(i, false)], s);
    run := [Wait(j, want), Go(j), Go(j), Set(i, {flag}, true), Post(i, false)];
  }
}
