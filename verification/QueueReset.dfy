/** Emptying a message queue: `osMessageQueueReset` discards one message for every data token it finds. */
module QueueReset {
  import opened Sequences
  import opened MessageQueue

  /** Thread `i` takes `n` steps in a row. */
  function Steps(s: State, i: nat, n: nat): (r: State)
    requires i < |s.threads|
    ensures |r.threads| == |s.threads|
    decreases n
  {
    if n == 0 then s else Steps(Step(s, i, true).0, i, n - 1)
  }

  /** Token, pop, and the four steps that give the block back: one turn of the loop. */
  const TURN: nat := 6

  predicate MayReset(s: State, i: nat) {
    i < |s.threads| && s.threads[i].phase.Idle?
  }

  /** The loop, for at most `n` turns; it ends when the data semaphore reads zero. */
  function Reset(s: State, i: nat, n: nat): State
    requires MayReset(s, i)
    decreases n
  {
    if n == 0 || s.data == 0 then s
    else
      var r := Steps(Begin(s, i, Get), i, TURN);
      if r.threads[i].phase.Idle? then Reset(r, i, n - 1) else r
  }

  /** With a token to take, a turn discards the first message and returns its block, whatever the others are doing. */
  lemma OneTurn(s: State, i: nat)
    requires Inv(s) && MayReset(s, i) && s.data > 0
    ensures var r := Steps(Begin(s, i, Get), i, TURN);
            && Inv(r) && s.messages != []
            && r == s.(tokens := s.tokens + 1, free := [s.messages[0].block] + s.free, data := s.data - 1,
                       messages := s.messages[1..], memory := r.memory, delivered := s.delivered + [s.messages[0]])
  {
    hide Inv, Store;
    BeginKeeps(s, i, Get);
    var s1 := Begin(s, i, Get);
    StepKeeps(s1, i, true);
    var s2 := Step(s1, i, true).0;
    StepKeeps(s2, i, true);
    var s3 := Step(s2, i, true).0;
    StepKeeps(s3, i, true);
    var s4 := Step(s3, i, true).0;
    StepKeeps(s4, i, true);
    var s5 := Step(s4, i, true).0;
    StepKeeps(s5, i, true);
    var s6 := Step(s5, i, true).0;
    StepKeeps(s6, i, true);
    var s7 := Step(s6, i, true).0;
    assert Steps(s1, i, TURN) == Steps(s2, i, 5) == Steps(s4, i, 3) == Steps(s6, i, 1) == s7;
    assert s7.threads == s.threads;
  }

  /**
   Undisturbed, a reset discards exactly as many messages as there were data tokens, the first ones first, and
   the pool gets every one of their blocks and tokens back. Messages that were inserted but whose token has not
   been released yet stay.
   */
  lemma {:induction false} ResetDiscards(s: State, i: nat, n: nat)
    requires Inv(s) && MayReset(s, i) && n >= s.data
    ensures var r := Reset(s, i, n);
            && Inv(r) && s.data <= |s.messages|
            && r.data == 0 && r.messages == s.messages[s.data..] && r.delivered == s.delivered + s.messages[..s.data]
            && r.tokens == s.tokens + s.data && |r.free| == |s.free| + s.data && r.threads == s.threads
    decreases n
  {
    hide Inv, Steps;
    if s.data == 0 {
      assert s.messages[..0] == [] && s.delivered + [] == s.delivered;
    } else {
      OneTurn(s, i);
      var r := Steps(Begin(s, i, Get), i, TURN);
      ResetDiscards(r, i, n - 1);
      assert s.messages[..s.data] == [s.messages[0]] + s.messages[1..][..s.data - 1];
    }
  }

  lemma {:induction false} NobodyCounts(ts: seq<Thread>, c: Class)
    requires forall j :: 0 <= j < |ts| ==> ts[j].phase.Idle?
    ensures Number(ts, c) == 0
  {
    if ts != [] { NobodyCounts(ts[1..], c); }
  }

  /** In a queue that nobody is using, after any run, a reset leaves no message. */
  lemma ResetEmpties(s0: State, run: seq<Event>, s: State, i: nat)
    requires Start(s0) && Leads(s0, run, s) && MayReset(s, i)
    requires forall j :: 0 <= j < |s.threads| ==> s.threads[j].phase.Idle?
    ensures var r := Reset(s, i, s.data);
            && r.messages == [] && r.data == 0 && r.delivered == s.delivered + s.messages
            && r.tokens == |r.free| == |s.free| + |s.messages|
  {
    hide Leads, Start, Step, Reset;
    StartInv(s0);
    RunKeeps(s0, run, s);
    ResetDiscards(s, i, s.data);
    forall c ensures Number(s.threads, c) == 0 {
      NobodyCounts(s.threads, c);
    }
    assert s.messages[..s.data] == s.messages;
  }
}
