/**
 What waits for event flags answer, on every run and bit by bit: the flags that each thread has asked for and those that
 it has seen last are kept as a history.
 */
module EventRequests {
  import opened EventFlags

  /** A pending wait: what was asked for, and the flags at the last look. */
  datatype Request = Request(want: Want, seen: Flags)

  type History = map<nat, Request>

  function Note(h: History, s: State, a: Action): History {
    match a
    case Wait(i, want) => h[i := Request(want, {})]
    case Go(i) => if i in h && i < |s.pcs| && s.pcs[i].Loading? then h[i := h[i].(seen := s.flags)] else h
    case _ => h
  }

  ghost predicate LeadsNoting(s: State, h: History, run: seq<Action>, s': State, h': History)
    decreases |run|
  {
    if run == [] then s' == s && h' == h
    else Enabled(s, run[0]) && LeadsNoting(Step(s, run[0]), Note(h, s, run[0]), run[1..], s', h')
  }

  /** All of the flags, or one of them. */
  predicate Met(w: Want, flags: Flags) {
    if w.all then forall b :: b in w.flags ==> b in flags else exists b :: b in w.flags && b in flags
  }

  lemma MetMeans(w: Want, flags: Flags)
    ensures Satisfied(w, flags) <==> Met(w, flags)
  {
    if !w.all && Met(w, flags) {
      var b :| b in w.flags && b in flags;
      assert b in flags * w.flags;
    }
  }

  /** The thread has the arguments of its call in hand. */
  predicate Agrees(s: State, h: History, i: nat) {
    i < |s.pcs| && (s.pcs[i].Loading? || s.pcs[i].Taking? || s.pcs[i].CallWait? || s.pcs[i].Blocked?) ==>
      && i in h && s.pcs[i].want == h[i].want
      && (s.pcs[i].Taking? ==> Met(h[i].want, h[i].seen))
      && (s.pcs[i].CallWait? || s.pcs[i].Blocked? ==> !h[i].want.polls && !Met(h[i].want, h[i].seen))
      && (s.pcs[i].CallWait? ==> s.pcs[i].seen == h[i].seen)
  }

  lemma StepAgrees(s: State, h: History, a: Action, i: nat)
    requires Enabled(s, a) && Agrees(s, h, i)
    ensures Agrees(Step(s, a), Note(h, s, a), i)
  {
    hide Met, Satisfied;
    if i in h { MetMeans(h[i].want, s.flags); }
  }

  lemma {:induction false} RunAgrees(s: State, h: History, run: seq<Action>, s': State, h': History, i: nat)
    requires Agrees(s, h, i) && LeadsNoting(s, h, run, s', h')
    ensures Agrees(s', h', i)
    decreases |run|
  {
    hide Agrees, Enabled, Step, Note;
    if run != [] {
      StepAgrees(s, h, run[0], i);
      RunAgrees(Step(s, run[0]), Note(h, s, run[0]), run[1..], s', h', i);
    }
  }

  /** Thread `i` returns `answer`. */
  predicate Returns(s: State, s': State, i: nat, answer: Answer) {
    i < |s'.pcs| && s'.pcs[i].Idle? && s'.answers == s.answers[i := answer]
  }

  predicate GoesOn(s: State, s': State, i: nat) {
    i < |s'.pcs| && !s'.pcs[i].Idle? && s'.answers == s.answers && s'.flags == s.flags
  }

  /** What the next step of the wait of thread `i` has to do about its request. */
  ghost predicate RightStep(s: State, s': State, i: nat, q: Request)
    requires i < |s.pcs|
  {
    match s.pcs[i]
    case Loading(_) =>
      s'.flags == s.flags &&
      if Met(q.want, s.flags) || !q.want.polls then GoesOn(s, s', i) else Returns(s, s', i, ErrorResource)
    case Taking(_) =>
      && Met(q.want, q.seen) && Returns(s, s', i, Value(s.flags))
      && forall b :: b in s'.flags <==> b in s.flags && (q.want.keep || b !in q.want.flags)
    case CallWait(_, _) =>
      && !q.want.polls && !Met(q.want, q.seen) && GoesOn(s, s', i)
      && (s'.pcs[i].Blocked? <==> s.flags == q.seen)
    case _ => true
  }

  /**
   On every run, refused wakes included: a wait takes flags only after it has seen all of those it asked for, or one of
   them; it then clears exactly what it asked for unless it keeps them, and returns the flags as they were; a zero
   timeout never sleeps and gives up at once; and whoever sleeps has seen that the flags were not there.
   */
  lemma WaitAnswers(s0: State, run: seq<Action>, s: State, h: History, i: nat)
    requires (forall j :: 0 <= j < |s0.pcs| ==> s0.pcs[j].Idle?) && LeadsNoting(s0, map[], run, s, h)
    requires Enabled(s, Go(i)) && !s.pcs[i].Waking?
    ensures i in h && RightStep(s, Step(s, Go(i)), i, h[i])
  {
    hide LeadsNoting, Met, Satisfied;
    RunAgrees(s0, map[], run, s, h, i);
    MetMeans(h[i].want, s.flags);
  }

  /** ... and gives up sleeping only with a timeout error. */
  lemma SleeperAnswers(s0: State, run: seq<Action>, s: State, h: History, i: nat)
    requires (forall j :: 0 <= j < |s0.pcs| ==> s0.pcs[j].Idle?) && LeadsNoting(s0, map[], run, s, h)
    requires Enabled(s, GiveUp(i))
    ensures i in h && !h[i].want.polls && !Met(h[i].want, h[i].seen)
    ensures Returns(s, Step(s, GiveUp(i)), i, ErrorTimeout) && Step(s, GiveUp(i)).flags == s.flags
  {
    hide LeadsNoting, Met, Satisfied;
    RunAgrees(s0, map[], run, s, h, i);
  }

  /** A flag is there after a step if the step sets it, or if it was there and the step neither clears nor takes it. */
  lemma FlagAfter(s: State, a: Action, b: nat)
    requires Enabled(s, a)
    ensures b in Step(s, a).flags <==>
              || (a.Set? && b in a.flags)
              || (b in s.flags && !(a.Clear? && b in a.flags)
                  && !(a.Go? && s.pcs[a.i].Taking? && !s.pcs[a.i].want.keep && b in s.pcs[a.i].want.flags))
  {}

  // ----- two takers

  /** The step leaves the flags of `w` alone, and is not one of thread `i`. */
  predicate Spares(s: State, a: Action, i: nat, w: Want)
    requires Enabled(s, a)
  {
    && a != Go(i)
    && (a.Clear? ==> a.flags !! w.flags)
    && (a.Go? && s.pcs[a.i].Taking? && !s.pcs[a.i].want.keep ==> s.pcs[a.i].want.flags !! w.flags)
  }

  ghost predicate LeadsSparing(s: State, run: seq<Action>, s': State, i: nat, w: Want)
    decreases |run|
  {
    if run == [] then s' == s
    else Enabled(s, run[0]) && Spares(s, run[0], i, w) && LeadsSparing(Step(s, run[0]), run[1..], s', i, w)
  }

  lemma StepSpares(s: State, a: Action, i: nat, w: Want)
    requires Enabled(s, a) && Spares(s, a, i, w) && i < |s.pcs| && s.pcs[i] == Taking(w)
    ensures i < |Step(s, a).pcs| && Step(s, a).pcs[i] == Taking(w)
    ensures Met(w, s.flags) ==> Met(w, Step(s, a).flags)
  {
    hide Met, Satisfied;
    Stays(w, s.flags, Step(s, a).flags);
  }

  lemma Stays(w: Want, flags: Flags, left: Flags)
    ensures (forall b :: b in w.flags && b in flags ==> b in left) && Met(w, flags) ==> Met(w, left)
  {
    if (forall b :: b in w.flags && b in flags ==> b in left) && Met(w, flags) && !w.all {
      var b :| b in w.flags && b in flags;
      assert b in left;
    }
  }

  /** The value a wait returns contains its flags, as long as nobody takes or clears them between its look and its take. */
  lemma {:induction false} UndisturbedTake(s: State, run: seq<Action>, s': State, i: nat, w: Want)
    requires i < |s.pcs| && s.pcs[i] == Taking(w) && Met(w, s.flags) && LeadsSparing(s, run, s', i, w)
    ensures i < |s'.pcs| && s'.pcs[i] == Taking(w) && Met(w, s'.flags)
    ensures Returns(s', Step(s', Go(i)), i, Value(s'.flags))
    decreases |run|
  {
    hide Met, Satisfied;
    if run != [] {
      StepSpares(s, run[0], i, w);
      UndisturbedTake(Step(s, run[0]), run[1..], s', i, w);
    }
  }

  /**
   But the look and the take are two steps: from every idle start with a flag set, two threads that want it both return
   from their waits as if they had taken it, and the value that the second one returns does not contain it.
   */
  lemma TakenTwice(s0: State, i: nat, j: nat, flag: nat) returns (run: seq<Action>, s: State)
    requires (forall k :: 0 <= k < |s0.pcs| ==> s0.pcs[k].Idle?) && flag in s0.flags
    requires i < |s0.pcs| && j < |s0.pcs| && i != j
    ensures LeadsAnyhow(s0, run, s) && |run| == 6 && run[0] == Wait(i, Want({flag}, true, false, false))
    ensures run[1] == Wait(j, Want({flag}, true, false, false)) && |s.pcs| == |s0.pcs| && s.pcs[i].Idle? && s.pcs[j].Idle?
    ensures i in s.answers && s.answers[i] == Value(s0.flags) && j in s.answers && s.answers[j] == Value(s0.flags - {flag})
  {
    var want := Want({flag}, true, false, false);
    var s1 := Step(s0, Wait(i, want));
    var s2 := Step(s1, Wait(j, want));
    var s3 := Step(s2, Go(i));
    var s4 := Step(s3, Go(j));
    var s5 := Step(s4, Go(i));
    s := Step(s5, Go(j));
    assert LeadsAnyhow(s5, [Go(j)], s);
    assert LeadsAnyhow(s4, [Go(i), Go(j)], s);
    assert LeadsAnyhow(s3, [Go(j), Go(i), Go(j)], s);
    assert LeadsAnyhow(s2, [Go(i), Go(j), Go(i), Go(j)], s);
    assert LeadsAnyhow(s1, [Wait(j, want), Go(i), Go(j), Go(i), Go(j)], s);
    run := [Wait(i, want), Wait(j, want), Go(i), Go(j), Go(i), Go(j)];
  }
}
