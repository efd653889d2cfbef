/**
 The ticket spin lock: the next ticket in the high half of a 32-bit word, the ticket being served in the low
 half, both wrapping at 16 bits. Any number of threads lock, try to lock and unlock it, one atomic access of
 the word per step.
 */
module TicketLock {

  const HALF: nat := 0x1_0000
  const FULL: nat := 0x1_0000_0000

  function High(word: nat): nat { word / HALF }
  function Low(word: nat): nat { word % HALF }

  /** `atomic_fetch_add` of one ticket: a carry out of the high half is lost. */
  function NextTicket(word: nat): nat { (word + HALF) % FULL }

  /** The 16-bit increment of the low half: it wraps without a carry into the high half. */
  function NextOwner(word: nat): nat { High(word) * HALF + (Low(word) + 1) % HALF }

  lemma Halves(word: nat)
    requires word < FULL
    ensures High(word) < HALF && Low(word) < HALF
    ensures NextTicket(word) < FULL && NextOwner(word) < FULL
    ensures High(NextTicket(word)) == (High(word) + 1) % HALF && Low(NextTicket(word)) == Low(word)
    ensures High(NextOwner(word)) == High(word) && Low(NextOwner(word)) == (Low(word) + 1) % HALF
  {
    var h, l := High(word), Low(word);
    assert word == h * HALF + l;
    if h + 1 == HALF {
      assert NextTicket(word) == l;
    } else {
      assert NextTicket(word) == (h + 1) * HALF + l;
    }
  }

  /** `Peeked` is between the read of the word and the compare-and-swap of `spin_try_lock`. */
  datatype Pc = Outside | Spinning(ticket: nat) | Inside | Peeked(seen: nat)

  /** `line` are the holder and the waiting threads in the order of their tickets: a history variable. */
  datatype Lock = Lock(word: nat, pcs: seq<Pc>, line: seq<nat>)

  datatype Action = Take(t: nat) | Spin(t: nat) | Peek(t: nat) | Swap(t: nat) | Unlock(t: nat)

  predicate Enabled(s: Lock, a: Action) {
    && a.t < |s.pcs|
    && match a
       case Take(t) => s.pcs[t].Outside?
       case Spin(t) => s.pcs[t].Spinning?
       case Peek(t) => s.pcs[t].Outside?
       case Swap(t) => s.pcs[t].Peeked?
       case Unlock(t) => s.pcs[t].Inside?
  }

  function Step(s: Lock, a: Action): Lock
    requires Enabled(s, a)
  {
    match a
    case Take(t) => Lock(NextTicket(s.word), s.pcs[t := Spinning(High(s.word))], s.line + [t])
    case Spin(t) => if Low(s.word) == s.pcs[t].ticket then s.(pcs := s.pcs[t := Inside]) else s
    case Peek(t) => if High(s.word) != Low(s.word) then s else s.(pcs := s.pcs[t := Peeked(s.word)])
    case Swap(t) =>
      if s.word == s.pcs[t].seen then Lock(NextTicket(s.word), s.pcs[t := Inside], s.line + [t])
      else s.(pcs := s.pcs[t := Outside])
    case Unlock(t) => Lock(NextOwner(s.word), s.pcs[t := Outside], if s.line == [] then [] else s.line[1..])
  }

  /** The ticket of the `i`th in line. */
  function TicketOf(word: nat, i: nat): nat { (Low(word) + i) % HALF }

  /** The `i`th in line has the `i`th ticket from the one being served; only the first can be inside. */
  predicate InLine(s: Lock, i: nat)
    requires i < |s.line|
  {
    var t := s.line[i];
    t < |s.pcs| && (s.pcs[t] == Spinning(TicketOf(s.word, i)) || (i == 0 && s.pcs[t].Inside?))
  }

  ghost predicate Inv(s: Lock) {
    && s.word < FULL
    && (forall i, j :: 0 <= i < j < |s.line| ==> s.line[i] != s.line[j])
    && (forall i :: 0 <= i < |s.line| ==> InLine(s, i))
    && (forall t :: 0 <= t < |s.pcs| && t !in s.line ==> s.pcs[t].Outside? || s.pcs[t].Peeked?)
    && (forall t :: 0 <= t < |s.pcs| && s.pcs[t].Peeked? ==> High(s.pcs[t].seen) == Low(s.pcs[t].seen))
    && High(s.word) == (Low(s.word) + |s.line|) % HALF
  }

  // ----- arithmetic of tickets

  lemma Add(x: nat, i: nat, j: nat)
    requires x < HALF
    ensures ((x + i) % HALF + j) % HALF == (x + i + j) % HALF
  {}

  lemma Distinct(x: nat, i: nat, j: nat)
    requires x < HALF && i < j < HALF
    ensures (x + i) % HALF != (x + j) % HALF
  {}

  /** The tickets of a line of `n` are distinct exactly as long as it has no more than 65536 members. */
  lemma TicketsDistinct(word: nat, n: nat)
    requires word < FULL
    ensures (forall i, j :: 0 <= i < j < n ==> TicketOf(word, i) != TicketOf(word, j)) <==> n <= HALF
  {
    if n > HALF {
      assert TicketOf(word, 0) == TicketOf(word, HALF);
    }
  }

  /** The word looks free exactly when the line is empty, or so long that the tickets have gone round. */
  lemma LooksFree(s: Lock)
    requires Inv(s)
    ensures High(s.word) == Low(s.word) <==> |s.line| % HALF == 0
  {
    Halves(s.word);
  }

  // ----- every step keeps the line

  lemma {:induction false} LineFits(line: seq<nat>, n: nat)
    requires (forall i, j :: 0 <= i < j < |line| ==> line[i] != line[j]) && forall i :: 0 <= i < |line| ==> line[i] < n
    ensures |line| <= n
  {
    if line == [] {
    } else if n - 1 in line {
      var k :| 0 <= k < |line| && line[k] == n - 1;
      LineFits(line[..k] + line[k + 1..], n - 1);
    } else {
      assert line[0] in line;
      forall i | 0 <= i < |line| ensures line[i] < n - 1 {
        assert line[i] in line;
      }
      LineFits(line, n - 1);
    }
  }

  lemma LineShort(s: Lock)
    requires Inv(s)
    ensures |s.line| <= |s.pcs|
  {
    forall j | 0 <= j < |s.line| ensures s.line[j] < |s.pcs| { assert InLine(s, j); }
    LineFits(s.line, |s.pcs|);
  }

  /** While somebody is not in line, the line is shorter than the number of threads. */
  lemma OneOut(s: Lock, t: nat)
    requires Inv(s) && t < |s.pcs| && t !in s.line
    ensures |s.line| < |s.pcs|
  {
    forall j | 0 <= j < |s.line| + 1 ensures (s.line + [t])[j] < |s.pcs| {
      if j < |s.line| { assert InLine(s, j); }
    }
    LineFits(s.line + [t], |s.pcs|);
  }

  lemma JoinKeeps(s: Lock, t: nat, pc: Pc)
    requires Inv(s) && t < |s.pcs| && t !in s.line
    requires pc == Spinning(High(s.word)) || (pc.Inside? && s.line == [])
    ensures Inv(Lock(NextTicket(s.word), s.pcs[t := pc], s.line + [t]))
  {
    Halves(s.word);
    var s' := Lock(NextTicket(s.word), s.pcs[t := pc], s.line + [t]);
    forall i | 0 <= i < |s'.line| ensures InLine(s', i) {
      if i < |s.line| { assert InLine(s, i); }
    }
    Add(Low(s.word), |s.line|, 1);
  }

  lemma LeaveKeeps(s: Lock, t: nat)
    requires Inv(s) && t < |s.pcs| && s.line != [] && s.line[0] == t && s.pcs[t].Inside?
    ensures Inv(Step(s, Unlock(t)))
  {
    Halves(s.word);
    var s' := Step(s, Unlock(t));
    forall i | 0 <= i < |s'.line| ensures InLine(s', i) {
      assert InLine(s, i + 1);
      Add(Low(s.word), 1, i);
    }
    forall u | 0 <= u < |s'.pcs| && u !in s'.line ensures s'.pcs[u].Outside? || s'.pcs[u].Peeked? {
      if u in s.line { assert u == t; }
    }
    Add(Low(s.word), 1, |s.line| - 1);
  }

  /** Whoever is inside is the first in line. */
  lemma InsideIsFirst(s: Lock, t: nat)
    requires Inv(s) && t < |s.pcs| && s.pcs[t].Inside?
    ensures s.line != [] && s.line[0] == t
  {
    assert t in s.line;
    var i :| 0 <= i < |s.line| && s.line[i] == t;
    assert InLine(s, i);
  }

  /** The ticket being served is that of the first in line, and of nobody else. */
  lemma ServedTicket(word: nat, i: nat)
    requires word < FULL && i < HALF
    ensures Low(word) == TicketOf(word, i) <==> i == 0
  {
    Halves(word);
    if i > 0 { Distinct(Low(word), 0, i); }
  }

  /** A spinning thread is served exactly when it is the first in line. */
  lemma ServedIsFirst(s: Lock, t: nat)
    requires Inv(s) && |s.pcs| <= HALF && t < |s.pcs| && s.pcs[t].Spinning?
    ensures t in s.line && (Low(s.word) == s.pcs[t].ticket <==> s.line[0] == t)
  {
    hide TicketOf, Low;
    assert t in s.line;
    var i :| 0 <= i < |s.line| && s.line[i] == t;
    assert InLine(s, i);
    LineShort(s);
    ServedTicket(s.word, i);
  }

  lemma StepKeeps(s: Lock, a: Action)
    requires Inv(s) && |s.pcs| <= HALF && Enabled(s, a)
    ensures Inv(Step(s, a)) && |Step(s, a).pcs| == |s.pcs|
  {
    LineShort(s);
    OutIsOut(s, a.t);
    match a
    case Take(t) => JoinKeeps(s, t, Spinning(High(s.word)));
    case Spin(t) =>
      ServedIsFirst(s, t);
      SpinKeeps(s, t);
    case Peek(t) => if High(s.word) == Low(s.word) { PeekKeeps(s, t, Peeked(s.word)); }
    case Swap(t) =>
      if s.word == s.pcs[t].seen {
        LooksFree(s);
        OneOut(s, t);
        JoinKeeps(s, t, Inside);
      } else {
        PeekKeeps(s, t, Outside);
      }
    case Unlock(t) =>
      InsideIsFirst(s, t);
      LeaveKeeps(s, t);
  }

  lemma OutIsOut(s: Lock, t: nat)
    requires Inv(s) && t < |s.pcs|
    ensures s.pcs[t].Outside? || s.pcs[t].Peeked? ==> t !in s.line
  {
    if t in s.line {
      var i :| 0 <= i < |s.line| && s.line[i] == t;
      assert InLine(s, i);
    }
  }

  lemma PeekKeeps(s: Lock, t: nat, pc: Pc)
    requires Inv(s) && t < |s.pcs| && t !in s.line
    requires pc.Outside? || (pc.Peeked? && High(pc.seen) == Low(pc.seen))
    ensures Inv(s.(pcs := s.pcs[t := pc]))
  {
    var s' := s.(pcs := s.pcs[t := pc]);
    forall i | 0 <= i < |s'.line| ensures InLine(s', i) { assert InLine(s, i); }
  }

  lemma SpinKeeps(s: Lock, t: nat)
    requires Inv(s) && t < |s.pcs| && s.pcs[t].Spinning? && t in s.line
    requires Low(s.word) == s.pcs[t].ticket ==> s.line[0] == t
    ensures Inv(Step(s, Spin(t)))
  {
    var s' := Step(s, Spin(t));
    forall i | 0 <= i < |s'.line| ensures InLine(s', i) { assert InLine(s, i); }
  }

  // ----- what the line means, over whole runs

  ghost predicate Start(s: Lock) {
    s.word < FULL && High(s.word) == Low(s.word) && s.line == [] && forall t :: 0 <= t < |s.pcs| ==> s.pcs[t].Outside?
  }

  ghost predicate Leads(s: Lock, run: seq<Action>, s': Lock)
    decreases |run|
  {
    if run == [] then s' == s else Enabled(s, run[0]) && Leads(Step(s, run[0]), run[1..], s')
  }

  lemma {:induction false} RunKeeps(s: Lock, run: seq<Action>, s': Lock)
    requires Inv(s) && |s.pcs| <= HALF && Leads(s, run, s')
    ensures Inv(s') && |s'.pcs| == |s.pcs|
    decreases |run|
  {
    hide Inv, Step;
    if run != [] {
      StepKeeps(s, run[0]);
      RunKeeps(Step(s, run[0]), run[1..], s');
    }
  }

  /**
   Mutual exclusion, first come first served, and the count: with up to 65536 threads, after any run that starts
   with a free word of any value, at most one thread is inside, a thread gets in only as the first of the line that
   the tickets form, and the halves differ by the length of the line.
   */
  lemma MutualExclusion(s0: Lock, run: seq<Action>, s: Lock, t: nat, u: nat)
    requires Start(s0) && |s0.pcs| <= HALF && Leads(s0, run, s) && t < |s.pcs| && u < |s.pcs|
    ensures s.pcs[t].Inside? ==> s.line != [] && s.line[0] == t && (s.pcs[u].Inside? ==> t == u)
    ensures s.pcs[t].Spinning? ==> t in s.line && (Step(s, Spin(t)).pcs[t].Inside? <==> s.line[0] == t)
    ensures High(s.word) == (Low(s.word) + |s.line|) % HALF && |s.line| <= |s.pcs|
  {
    hide Leads;
    assert Inv(s0);
    RunKeeps(s0, run, s);
    if s.pcs[t].Inside? { InsideIsFirst(s, t); }
    if s.pcs[u].Inside? { InsideIsFirst(s, u); }
    if s.pcs[t].Spinning? { ServedIsFirst(s, t); }
    LineShort(s);
  }

  /** A thread outside finds the word free, and its compare-and-swap succeeds, only when nobody is in line. */
  lemma TryLockOnlyWhenFree(s0: Lock, run: seq<Action>, s: Lock, t: nat)
    requires Start(s0) && |s0.pcs| <= HALF && Leads(s0, run, s) && t < |s.pcs|
    ensures |s0.pcs| < HALF ==> (High(s.word) == Low(s.word) <==> s.line == [])
    ensures s.pcs[t].Outside? ==> (Step(s, Peek(t)).pcs[t].Peeked? <==> s.line == [])
    ensures s.pcs[t].Peeked? && Step(s, Swap(t)).pcs[t].Inside? ==> s.line == []
  {
    hide Leads;
    assert Inv(s0);
    RunKeeps(s0, run, s);
    LooksFree(s);
    OutIsOut(s, t);
    if t !in s.line { OneOut(s, t); }
    LineShort(s);
  }

  // ----- one thread too many

  lemma {:induction false} Then(s0: Lock, run: seq<Action>, s: Lock, a: Action)
    requires Leads(s0, run, s) && Enabled(s, a)
    ensures Leads(s0, run + [a], Step(s, a))
    decreases |run|
  {
    hide Enabled, Step;
    if run == [] {
      assert (run + [a])[1..] == [];
    } else {
      Then(Step(s0, run[0]), run[1..], s, a);
      assert (run + [a])[1..] == run[1..] + [a];
    }
  }

  /** The first thread is inside and those after it, up to `n` in all, have a ticket; the rest is outside. */
  predicate Crowd(s: Lock, word: nat, size: nat, n: nat) {
    && |s.pcs| == size && n <= size && |s.line| == n && s.word < FULL
    && Low(s.word) == Low(word) && High(s.word) == (Low(word) + n) % HALF
    && (forall k :: 0 <= k < size ==> if k == 0 then s.pcs[k].Inside? else if k < n then s.pcs[k].Spinning? else s.pcs[k].Outside?)
  }

  lemma {:induction false} Gathers(s0: Lock, n: nat) returns (run: seq<Action>, s: Lock)
    requires Start(s0) && 1 <= n <= |s0.pcs|
    ensures Leads(s0, run, s) && Crowd(s, s0.word, |s0.pcs|, n)
    decreases n
  {
    Halves(s0.word);
    if n == 1 {
      var s1 := Step(s0, Take(0));
      s := Step(s1, Spin(0));
      Then(s0, [], s0, Take(0));
      Then(s0, [] + [Take(0)], s1, Spin(0));
      run := [] + [Take(0)] + [Spin(0)];
    } else {
      var run1, s1 := Gathers(s0, n - 1);
      Halves(s1.word);
      Then(s0, run1, s1, Take(n - 1));
      run, s := run1 + [Take(n - 1)], Step(s1, Take(n - 1));
      Add(Low(s0.word), n - 1, 1);
    }
  }

  /**
   With more than 65536 threads mutual exclusion fails: when 65536 of them are in line the word looks free, and another
   one that tries the lock gets in while the first one is inside.
   */
  lemma TooMany(s0: Lock) returns (run: seq<Action>, s: Lock)
    requires Start(s0) && |s0.pcs| > HALF
    ensures Leads(s0, run, s) && |s.pcs| == |s0.pcs| && s.pcs[0].Inside? && s.pcs[HALF].Inside?
  {
    var s1, s2;
    run, s1 := Gathers(s0, HALF);
    Halves(s0.word);
    assert High(s1.word) == Low(s1.word) by { Whole(Low(s0.word)); }
    s2 := Step(s1, Peek(HALF));
    Then(s0, run, s1, Peek(HALF));
    Then(s0, run + [Peek(HALF)], s2, Swap(HALF));
    run, s := run + [Peek(HALF)] + [Swap(HALF)], Step(s2, Swap(HALF));
  }

  lemma Whole(x: nat)
    requires x < HALF
    ensures (x + HALF) % HALF == x
  {}

  /** At most one thread inside, after every run. */
  ghost predicate Excludes(s0: Lock) {
    forall run: seq<Action>, s: Lock, t: nat, u: nat ::
      Leads(s0, run, s) && t < |s.pcs| && u < |s.pcs| && s.pcs[t].Inside? && s.pcs[u].Inside? ==> t == u
  }

  /** The exact bound: the lock excludes if and only if no more than 65536 threads use it. */
  lemma ExcludesExactly(s0: Lock)
    requires Start(s0)
    ensures Excludes(s0) <==> |s0.pcs| <= HALF
  {
    hide Start, Leads;
    if |s0.pcs| <= HALF {
      forall run: seq<Action>, s: Lock, t: nat, u: nat
        | Leads(s0, run, s) && t < |s.pcs| && u < |s.pcs| && s.pcs[t].Inside? && s.pcs[u].Inside? ensures t == u
      {
        MutualExclusion(s0, run, s, t, u);
      }
    } else {
      var run, s := TooMany(s0);
    }
  }
}
