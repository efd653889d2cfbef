/** What each atomic operation does to its object and returns, on every run of the two cores. */
module AtomicOps {
  import opened PackedLock

  // ----- remainders

  lemma Times(a: int, n: nat)
    requires a >= 1
    ensures a * n >= n
  {
    assert a * n == n + (a - 1) * n;
  }

  lemma OneQuotient(q: int, r: int, q': int, r': int, n: nat)
    requires q * n + r == q' * n + r' && 0 <= r < n && 0 <= r' < n
    ensures q == q' && r == r'
  {
    if q > q' { Times(q - q', n); } else if q < q' { Times(q' - q, n); }
  }

  lemma Quotient(x: int, q: int, r: int, n: nat)
    requires 0 <= r < n && x == q * n + r
    ensures x / n == q && x % n == r
  {
    OneQuotient(q, r, x / n, x % n, n);
  }

  lemma SumWraps(x: nat, v: nat, n: nat)
    requires x < n && v < n
    ensures (x + v) % n == if x + v < n then x + v else x + v - n
  {
    if x + v < n { Quotient(x + v, 0, x + v, n); } else { Quotient(x + v, 1, x + v - n, n); }
  }

  lemma DifferenceWraps(x: nat, v: nat, n: nat)
    requires x < n && v < n
    ensures (x - v) % n == if x >= v then x - v else x - v + n
  {
    if x >= v { Quotient(x - v, 0, x - v, n); } else { Quotient(x - v, -1, x - v + n, n); }
  }

  lemma SumBelow(x: nat, y: nat, n: nat)
    requires n > 0
    ensures (x % n + y) % n == (x + y) % n
  {
    var q, q' := x / n, (x % n + y) / n;
    assert x == q * n + x % n && x % n + y == q' * n + (x % n + y) % n;
    Quotient(x + y, q + q', (x % n + y) % n, n);
  }

  // ----- bits

  /** Bit `k` of a number. */
  predicate BitOf(x: nat, k: nat) {
    if k == 0 then x % 2 == 1 else BitOf(x / 2, k - 1)
  }

  lemma {:induction false} ZeroBits(k: nat)
    ensures !BitOf(0, k)
  {
    if k > 0 { ZeroBits(k - 1); }
  }

  lemma {:induction false} AndBits(x: nat, y: nat, k: nat)
    ensures BitOf(And(x, y), k) <==> BitOf(x, k) && BitOf(y, k)
  {
    if x == 0 || y == 0 {
      ZeroBits(k);
    } else if k > 0 {
      AndBits(x / 2, y / 2, k - 1);
      assert And(x, y) / 2 == And(x / 2, y / 2);
    }
  }

  lemma {:induction false} OrBits(x: nat, y: nat, k: nat)
    ensures BitOf(Or(x, y), k) <==> BitOf(x, k) || BitOf(y, k)
  {
    if x == 0 || y == 0 {
      ZeroBits(k);
    } else if k > 0 {
      OrBits(x / 2, y / 2, k - 1);
      assert Or(x, y) / 2 == Or(x / 2, y / 2);
    }
  }

  function Pow2(n: nat): (r: nat)
    ensures r > 0
  {
    if n == 0 then 1 else 2 * Pow2(n - 1)
  }

  lemma {:induction false} OrBelow(x: nat, y: nat, n: nat)
    requires x < Pow2(n) && y < Pow2(n)
    ensures Or(x, y) < Pow2(n)
  {
    if n > 0 && x > 0 && y > 0 { OrBelow(x / 2, y / 2, n - 1); }
  }

  lemma {:induction false} AndBelow(x: nat, y: nat)
    ensures And(x, y) <= x
  {
    if x > 0 && y > 0 { AndBelow(x / 2, y / 2); }
  }

  lemma {:induction false} PowSum(m: nat, n: nat)
    ensures Pow2(m + n) == Pow2(m) * Pow2(n)
  {
    if m > 0 { PowSum(m - 1, n); }
  }

  lemma Eight()
    ensures Pow2(8) == 0x100
  {
    assert Pow2(4) == 16;
    PowSum(4, 4);
  }

  lemma Sixteen()
    ensures Pow2(16) == 0x1_0000
  {
    hide Pow2;
    Eight();
    PowSum(8, 8);
  }

  lemma ThirtyTwo()
    ensures Pow2(32) == 0x1_0000_0000
  {
    hide Pow2;
    Sixteen();
    PowSum(16, 16);
  }

  lemma SixtyFour()
    ensures Pow2(64) == 0x1_0000_0000_0000_0000
  {
    hide Pow2;
    ThirtyTwo();
    PowSum(32, 32);
  }

  lemma SizeIs(w: Width)
    ensures Size(w) == Pow2(Bits(w))
  {
    hide Pow2;
    Eight();
    Sixteen();
    ThirtyTwo();
    SixtyFour();
  }

  // ----- one operation

  /** The new value is one of the object's type. */
  lemma NewFits(op: Op, found: nat)
    requires Typed(op) && found < Size(op.width)
    ensures New(op, found) < Size(op.width)
  {
    hide Pow2, And, Or;
    SizeIs(op.width);
    match op.kind
    case FetchAnd(v) => AndBelow(found, v);
    case FetchOr(v) => OrBelow(found, v, Bits(op.width));
    case _ =>
  }

  /** The object gets the value, and what is behind it in memory stays. */
  lemma Merged(w: Width, cell: nat, v: nat)
    requires v < Size(w)
    ensures Merge(w, cell, v) >= 0 && Merge(w, cell, v) % Size(w) == v && Merge(w, cell, v) / Size(w) == cell / Size(w)
    ensures v == cell % Size(w) ==> Merge(w, cell, v) == cell
  {
    hide Size;
    var q := cell / Size(w);
    assert cell == q * Size(w) + cell % Size(w);
    Quotient(Merge(w, cell, v), q, v, Size(w));
  }

  /**
   What an operation does to its object, which contained `was` and contains `now`, and what it returns: in integers, in
   bits, or by comparison.
   */
  ghost predicate Changes(op: Op, was: nat, now: nat, a: Answer) {
    match op.kind
    case FetchAdd(v) => a == Value(was) && (now == was + v || now == was + v - Size(op.width))
    case FetchSub(v) => a == Value(was) && (now == was - v || now == was - v + Size(op.width))
    case FetchAnd(v) => a == Value(was) && forall k: nat :: BitOf(now, k) <==> BitOf(was, k) && BitOf(v, k)
    case FetchOr(v) => a == Value(was) && forall k: nat :: BitOf(now, k) <==> BitOf(was, k) || BitOf(v, k)
    case Exchange(v) => a == Value(was) && now == v
    case CompareExchange(expected, desired) =>
      if was == expected then a == Swapped && now == desired else a == Seen(was) && now == was
    case Store(v) => a == Nothing && now == v
    case Load8 => now == was && a.Value? && (a.v == was <==> was < 0x1_0000_0000)
  }

  /** What an operation that takes memory from `m` to `m'` and returns `a` has done: to its object and to nothing else. */
  ghost predicate Does(op: Op, m: Memory, m': Memory, a: Answer) {
    && (forall b: nat :: b != op.addr ==> Load(m', b) == Load(m, b))
    && Load(m', op.addr) / Size(op.width) == Load(m, op.addr) / Size(op.width)
    && Changes(op, Contents(m, op.addr, op.width), Contents(m', op.addr, op.width), a)
  }

  lemma Low(was: nat)
    ensures was % Size(Word) == was <==> was < 0x1_0000_0000
  {}

  lemma NewChanges(op: Op, was: nat)
    requires Typed(op) && was < Size(op.width)
    ensures Changes(op, was, New(op, was), Reply(op, was))
  {
    hide And, Or, BitOf, Size;
    match op.kind
    case FetchAdd(v) => SumWraps(was, v, Size(op.width));
    case FetchSub(v) => DifferenceWraps(was, v, Size(op.width));
    case Load8 => Low(was);
    case FetchAnd(v) => forall k: nat { AndBits(was, v, k); }
    case FetchOr(v) => forall k: nat { OrBits(was, v, k); }
    case _ =>
  }

  lemma EffectDoes(op: Op, m: Memory)
    requires Typed(op)
    ensures Does(op, m, m[op.addr := Effect(op, Load(m, op.addr))], Reply(op, Contents(m, op.addr, op.width)))
  {
    hide Typed, New, Reply, Changes, Merge, Load, Size;
    var cell := Load(m, op.addr);
    var was := Contents(m, op.addr, op.width);
    NewFits(op, was);
    NewChanges(op, was);
    Merged(op.width, cell, New(op, was));
    forall b { OtherObject(m, op.addr, Effect(op, cell), b); }
  }

  // ----- the operations of a run

  /** The entries of core `c`. */
  function Of(log: seq<Entry>, c: bv32): seq<Entry> {
    if log == [] then []
    else Of(log[..|log| - 1], c) + if log[|log| - 1].core == c then [log[|log| - 1]] else []
  }

  lemma OfMore(log: seq<Entry>, e: Entry, c: bv32)
    ensures Of(log + [e], c) == Of(log, c) + if e.core == c then [e] else []
  {
    assert (log + [e])[..|log|] == log;
  }

  /** Every operation in the log, and every one that is under way, is of the right type and has replied as it should. */
  ghost predicate Proper(s: State) {
    && (forall i :: 0 <= i < |s.log| ==> Typed(s.log[i].op) && s.log[i].answer == Reply(s.log[i].op, s.log[i].found))
    && (!s.zero.Idle? ==> Typed(s.zero.op)) && (!s.one.Idle? ==> Typed(s.one.op))
  }

  lemma ProperStep(s: State, e: Event)
    requires Proper(s) && Possible(s, e)
    ensures Proper(Happen(s, e)) && |s.log| <= |Happen(s, e).log| && Happen(s, e).log[..|s.log|] == s.log
  {
    hide Effect, Reply, Typed, Set, Clear, Place, Index, OnlyMine;
    TwoCores(0, e.c);
  }

  lemma {:induction false} ProperOnRun(s: State, run: seq<Event>, s': State)
    requires Proper(s) && Leads(s, run, s')
    ensures Proper(s') && |s.log| <= |s'.log| && s'.log[..|s.log|] == s.log
    decreases |run|
  {
    hide Happen, Possible, Proper;
    if run != [] {
      var s1 := Happen(s, run[0]);
      ProperStep(s, run[0]);
      ProperOnRun(s1, run[1..], s');
      assert s'.log[..|s1.log|][..|s.log|] == s'.log[..|s.log|];
    }
  }

  /** The operation that core `c` has started when the log was `n` long, and not finished yet. */
  ghost predicate Doing(s: State, c: bv32, op: Op, n: nat)
    requires n <= |s.log|
  {
    match s.Core(c)
    case Idle => true
    case Leaving(o, answer) =>
      && o == op && |Of(s.log[n..], c)| == 1 && Of(s.log[n..], c)[0].op == op && Of(s.log[n..], c)[0].answer == answer
    case pc => pc.op == op && Of(s.log[n..], c) == []
  }

  /** ... and the next one has not been started. */
  predicate Undisturbed(run: seq<Event>, c: bv32) {
    forall i :: 0 <= i < |run| ==> !(run[i].Start? && run[i].c == c)
  }

  lemma DoingStep(s: State, e: Event, c: bv32, op: Op, n: nat)
    requires n <= |s.log| && c < 2 && Possible(s, e) && Doing(s, c, op, n) && !(e.Start? && e.c == c)
    ensures n <= |Happen(s, e).log| && Doing(Happen(s, e), c, op, n)
  {
    hide Effect, Reply, Typed, Set, Clear, Place, Index, OnlyMine, Of;
    TwoCores(c, e.c);
    var s' := Happen(s, e);
    if |s'.log| > |s.log| {
      var x := s'.log[|s.log|];
      assert s'.log[n..] == s.log[n..] + [x];
      OfMore(s.log[n..], x, c);
    }
  }

  lemma {:induction false} DoingOnRun(s: State, run: seq<Event>, s': State, c: bv32, op: Op, n: nat)
    requires n <= |s.log| && c < 2 && Leads(s, run, s') && Undisturbed(run, c) && Doing(s, c, op, n)
    ensures n <= |s'.log| && Doing(s', c, op, n)
    decreases |run|
  {
    hide Happen, Possible, Doing;
    if run != [] {
      DoingStep(s, run[0], c, op, n);
      assert forall i :: 0 <= i < |run| - 1 ==> run[1..][i] == run[i + 1];
      DoingOnRun(Happen(s, run[0]), run[1..], s', c, op, n);
    }
  }

  lemma {:induction false} OneOf(log: seq<Entry>, c: bv32) returns (i: nat)
    requires |Of(log, c)| == 1
    ensures i < |log| && log[i].core == c && log[i] == Of(log, c)[0]
    ensures forall j :: 0 <= j < |log| && log[j].core == c ==> j == i
  {
    var last := log[|log| - 1];
    assert log == log[..|log| - 1] + [last];
    if last.core == c {
      i := |log| - 1;
      NoneOf(log[..i], c);
      assert forall j :: 0 <= j < i ==> log[..i][j] == log[j];
    } else {
      i := OneOf(log[..|log| - 1], c);
      assert forall j :: 0 <= j < |log| - 1 ==> log[..|log| - 1][j] == log[j];
    }
  }

  lemma {:induction false} NoneOf(log: seq<Entry>, c: bv32)
    requires Of(log, c) == []
    ensures forall j :: 0 <= j < |log| ==> log[j].core != c
  {
    if log != [] {
      NoneOf(log[..|log| - 1], c);
      assert forall j :: 0 <= j < |log| - 1 ==> log[..|log| - 1][j] == log[j];
    }
  }

  lemma ReplayNext(init: Memory, log: seq<Entry>, i: nat)
    requires i < |log|
    ensures var m := Replay(init, log[..i]); var op := log[i].op;
            Replay(init, log[..i + 1]) == m[op.addr := Effect(op, Load(m, op.addr))]
  {
    hide Effect, Load;
    assert log[..i + 1][..i] == log[..i];
  }

  /**
   A whole operation, in any run: core `c` starts it, any steps of both cores follow, and it is about to return. Then it
   has taken place exactly once since, atomically: there is one place `i` in the order of all operations, after its start,
   at which memory goes from one state to the next as the kind of the operation says, and it returns what it found there.
   */
  lemma OperationIsAtomic(init: Memory, before: seq<Event>, s: State, c: bv32, op: Op, during: seq<Event>, s': State)
    returns (i: nat)
    requires Leads(Boot(init), before, s) && c < 2 && s.Core(c).Idle? && Typed(op)
    requires Leads(Begin(s, c, op), during, s') && Undisturbed(during, c) && s'.Core(c).Leaving?
    ensures |s.log| <= i < |s'.log| && s'.log[i].core == c && s'.log[i].op == op && s'.log[i].answer == s'.Core(c).answer
    ensures forall j :: |s.log| <= j < |s'.log| && s'.log[j].core == c ==> j == i
    ensures Does(op, Replay(init, s'.log[..i]), Replay(init, s'.log[..i + 1]), s'.Core(c).answer)
    ensures s'.memory == Replay(init, s'.log)
  {
    hide Leads, BitsOk, Exclusive, Effect, Reply, Typed, Replay, Does, Load;
    TwoCores(c, Other(c));
    BootInv(init);
    RunKeeps(init, Boot(init), before, s);
    ProperOnRun(Boot(init), before, s);
    BeginKeeps(init, s, c, op);
    RunKeeps(init, Begin(s, c, op), during, s');
    ProperOnRun(Begin(s, c, op), during, s');
    var n := |s.log|;
    assert s.log[n..] == [];
    DoingOnRun(Begin(s, c, op), during, s', c, op, n);
    var k := OneOf(s'.log[n..], c);
    i := n + k;
    assert forall j :: 0 <= j < |s'.log| - n ==> s'.log[n..][j] == s'.log[n + j];
    ReplayNext(init, s'.log, i);
    EffectDoes(op, Replay(init, s'.log[..i]));
  }

  // ----- counting up

  predicate Counting(op: Op, a: nat, w: Width) {
    op.addr == a ==> op.width == w && op.kind == FetchAdd(1)
  }

  function Started(run: seq<Event>, a: nat): nat {
    if run == [] then 0 else (if run[0].Start? && run[0].op.addr == a then 1 else 0) + Started(run[1..], a)
  }

  /** An operation at `a` that is under way and not in the log yet. */
  function Owing(pc: Pc, a: nat): nat {
    if !pc.Idle? && !pc.Leaving? && pc.op.addr == a then 1 else 0
  }

  function Done(log: seq<Entry>, a: nat): nat {
    if log == [] then 0 else Done(log[..|log| - 1], a) + if log[|log| - 1].op.addr == a then 1 else 0
  }

  lemma DoneMore(log: seq<Entry>, e: Entry, a: nat)
    ensures Done(log + [e], a) == Done(log, a) + if e.op.addr == a then 1 else 0
  {
    assert (log + [e])[..|log|] == log;
  }

  ghost predicate AllCount(s: State, a: nat, w: Width) {
    && (forall i :: 0 <= i < |s.log| ==> Counting(s.log[i].op, a, w))
    && (!s.zero.Idle? ==> Counting(s.zero.op, a, w)) && (!s.one.Idle? ==> Counting(s.one.op, a, w))
  }

  function Known(s: State, a: nat): nat {
    Done(s.log, a) + Owing(s.zero, a) + Owing(s.one, a)
  }

  lemma CountStep(s: State, e: Event, a: nat, w: Width)
    requires AllCount(s, a, w) && Possible(s, e) && (e.Start? ==> Counting(e.op, a, w))
    ensures AllCount(Happen(s, e), a, w)
    ensures Known(Happen(s, e), a) == Known(s, a) + if e.Start? && e.op.addr == a then 1 else 0
  {
    hide Effect, Reply, Typed, Set, Clear, Place, Index, OnlyMine, Done, Counting;
    TwoCores(0, e.c);
    var s' := Happen(s, e);
    if |s'.log| > |s.log| { DoneMore(s.log, s'.log[|s.log|], a); }
  }

  lemma {:induction false} CountOnRun(s: State, run: seq<Event>, s': State, a: nat, w: Width)
    requires AllCount(s, a, w) && Leads(s, run, s')
    requires forall i :: 0 <= i < |run| && run[i].Start? ==> Counting(run[i].op, a, w)
    ensures AllCount(s', a, w) && Known(s', a) == Known(s, a) + Started(run, a)
    decreases |run|
  {
    hide Happen, Possible, Known, AllCount, Counting;
    if run != [] {
      CountStep(s, run[0], a, w);
      assert forall i :: 0 <= i < |run| - 1 ==> run[1..][i] == run[i + 1];
      CountOnRun(Happen(s, run[0]), run[1..], s', a, w);
    }
  }

  /** One operation of such a run: it adds one to the object, or concerns another one. */
  lemma CountedEffect(m: Memory, op: Op, a: nat, w: Width)
    requires Counting(op, a, w)
    ensures var was, now := Contents(m, a, w), Contents(m[op.addr := Effect(op, Load(m, op.addr))], a, w);
            && now < Size(w)
            && (if op.addr == a then now == was + 1 || now == was + 1 - Size(w) else now == was)
  {
    hide Effect;
    if op.addr == a { EffectDoes(op, m); }
  }

  lemma {:induction false} ReplayCounts(init: Memory, log: seq<Entry>, a: nat, w: Width)
    requires forall i :: 0 <= i < |log| ==> Counting(log[i].op, a, w)
    ensures Contents(Replay(init, log), a, w) == (Contents(init, a, w) + Done(log, a)) % Size(w)
  {
    hide Effect, Contents, Load, Counting, Size;
    if log == [] {
      SmallMod(init, a, w);
    } else {
      var rest := log[..|log| - 1];
      var op := log[|log| - 1].op;
      assert forall i :: 0 <= i < |rest| ==> rest[i] == log[i];
      ReplayCounts(init, rest, a, w);
      var m := Replay(init, rest);
      assert Counting(op, a, w);
      CountedEffect(m, op, a, w);
      if op.addr == a {
        OneMore(Contents(init, a, w) + Done(rest, a), w, Contents(m, a, w), Contents(Replay(init, log), a, w));
      }
    }
  }

  lemma SmallMod(m: Memory, a: nat, w: Width)
    ensures Contents(m, a, w) % Size(w) == Contents(m, a, w)
  {}

  lemma OneMore(x: nat, w: Width, was: nat, now: nat)
    requires was == x % Size(w) && now < Size(w) && (now == was + 1 || now == was + 1 - Size(w))
    ensures now == (x + 1) % Size(w)
  {
    hide Size;
    SumBelow(x, 1, Size(w));
    SumWraps(was, 1, Size(w));
  }

  /**
   Nothing is lost: when all operations at an address are additions of one, by whichever core and however interleaved
   with each other and with operations on other addresses, then once both cores are idle the object has gone up by their
   number.
   */
  lemma CountsUp(init: Memory, run: seq<Event>, s: State, a: nat, w: Width)
    requires Leads(Boot(init), run, s) && s.zero.Idle? && s.one.Idle?
    requires forall i :: 0 <= i < |run| && run[i].Start? && run[i].op.addr == a ==>
               run[i].op.width == w && run[i].op.kind == FetchAdd(1)
    ensures Contents(s.memory, a, w) == (Contents(init, a, w) + Started(run, a)) % Size(w)
  {
    hide Leads, BitsOk, Sequential, Exclusive, Replay;
    BootInv(init);
    RunKeeps(init, Boot(init), run, s);
    CountOnRun(Boot(init), run, s, a, w);
    ReplayCounts(init, s.log, a, w);
  }

  // ----- which lock

  /** Objects share a lock exactly if their stripes of four bytes are a multiple of sixteen apart. */
  lemma SameLockExactly(a: nat, b: nat)
    ensures Index(a) == Index(b) <==> (a / 4 - b / 4) % 16 == 0
  {
    hide Index;
    IndexValue(a);
    IndexValue(b);
    if a / 4 % 16 == b / 4 % 16 { SameIndex(a, b); }
  }

  lemma IndexValue(a: nat)
    ensures Index(a) as nat == a / 4 % 16
  {}

  lemma SameIndex(a: nat, b: nat)
    requires a / 4 % 16 == b / 4 % 16
    ensures Index(a) == Index(b)
  {}
}
