/**
 A message queue over a memory pool over two counting semaphores. Every operation is several atomic steps:
 a token is taken or given with one atomic operation, the free list and the message list are each changed
 under a spin lock. Any number of threads put, get, allocate and free at the same time.
 */
module MessageQueue {
  import opened Sequences

  type Block = nat
  type Datum = int

  /** `stamp` counts the insertions; it exists only to say what "first in, first out" means. */
  datatype Message = Message(block: Block, prio: nat, datum: Datum, stamp: nat)

  /** What a block of the pool contains: its link while it is free, and a message while it is in use. */
  datatype Cell = Junk | Payload(datum: Datum)

  /** What a thread wants from the pool: a block to keep, or one for a message. */
  datatype Want = Keep | Send(prio: nat, datum: Datum)

  /** The place of a thread between two of its atomic steps. */
  datatype Phase =
    | Idle
    | Taking(want: Want)                          // in the acquire of the pool semaphore
    | Popping(want: Want)                         // has a token, still has to pop a free block
    | Writing(prio: nat, datum: Datum, b: Block)  // has a block, still has to fill it
    | Inserting(prio: nat, datum: Datum, b: Block)
    | Publishing                                  // has inserted, still has to test the data semaphore
    | Adding                                      // has tested it, still has to increment it
    | Fetching                                    // in the acquire of the data semaphore
    | Removing                                    // has a token, still has to pop a message
    | Copying(m: Message)
    | Freeing(b: Block)                           // still has to push the block on the free list
    | Returning                                   // has pushed it, still has to test the pool semaphore
    | Crediting                                   // has tested it, still has to increment it

  /** `held` are the blocks that a thread has allocated for itself. */
  datatype Thread = Thread(phase: Phase, held: seq<Block>)

  datatype State = State(
    capacity: nat,
    tokens: nat,
    free: seq<Block>,
    data: nat,
    messages: seq<Message>,
    memory: seq<Cell>,
    threads: seq<Thread>,
    clock: nat,
    delivered: seq<Message>)

  /** How a step ends for its thread; the last three are the branches that the code takes for impossible. */
  datatype Outcome = GoesOn | Done | GivesUp | Received(datum: Datum, prio: nat) | NullBlock | SyncError | ReleaseError

  // ----- the steps

  function At(s: State, i: nat, phase: Phase): State
    requires i < |s.threads|
  {
    s.(threads := s.threads[i := s.threads[i].(phase := phase)])
  }

  /** Messages of higher priority go first, and behind their equals. */
  function Place(q: seq<Message>, prio: nat): (i: nat)
    ensures i <= |q|
    ensures forall j :: 0 <= j < i ==> q[j].prio >= prio
    ensures i < |q| ==> prio > q[i].prio
  {
    if q == [] || prio > q[0].prio then 0 else 1 + Place(q[1..], prio)
  }

  datatype Request = Put(prio: nat, datum: Datum) | Get | Alloc | Free(index: nat)

  /** An idle thread enters one of the functions; it frees only a block that it holds. */
  predicate MayBegin(s: State, i: nat, r: Request) {
    i < |s.threads| && s.threads[i].phase.Idle? && (r.Free? ==> r.index < |s.threads[i].held|)
  }

  function Begin(s: State, i: nat, r: Request): State
    requires MayBegin(s, i, r)
  {
    match r
    case Put(prio, datum) => At(s, i, Taking(Send(prio, datum)))
    case Get => At(s, i, Fetching)
    case Alloc => At(s, i, Taking(Keep))
    case Free(k) =>
      var held := s.threads[i].held;
      s.(threads := s.threads[i := Thread(Freeing(held[k]), RemoveAt(held, k))])
  }

  /** The next step of thread `i`; an acquire may give up at any time. */
  function Step(s: State, i: nat, patient: bool): (State, Outcome)
    requires i < |s.threads|
  {
    match s.threads[i].phase
    case Idle => (s, GoesOn)
    case Taking(want) =>
      if !patient then (At(s, i, Idle), GivesUp)
      else if s.tokens == 0 then (s, GoesOn)
      else (At(s.(tokens := s.tokens - 1), i, Popping(want)), GoesOn)
    case Popping(want) =>
      if s.free == [] then (s, NullBlock)
      else
        var s' := s.(free := s.free[1..]);
        var b := s.free[0];
        (match want
         case Keep => (s'.(threads := s.threads[i := Thread(Idle, s.threads[i].held + [b])]), Done)
         case Send(prio, datum) => (At(s', i, Writing(prio, datum, b)), GoesOn))
    case Writing(prio, datum, b) =>
      (At(s.(memory := Store(s.memory, b, Payload(datum))), i, Inserting(prio, datum, b)), GoesOn)
    case Inserting(prio, datum, b) =>
      var m := Message(b, prio, datum, s.clock);
      (At(s.(messages := InsertAt(s.messages, Place(s.messages, prio), m), clock := s.clock + 1), i, Publishing), GoesOn)
    case Publishing => if s.data >= s.capacity then (s, ReleaseError) else (At(s, i, Adding), GoesOn)
    case Adding => (At(s.(data := s.data + 1), i, Idle), Done)
    case Fetching =>
      if !patient then (At(s, i, Idle), GivesUp)
      else if s.data == 0 then (s, GoesOn)
      else (At(s.(data := s.data - 1), i, Removing), GoesOn)
    case Removing =>
      if s.messages == [] then (At(s, i, Idle), SyncError)
      else
        var m := s.messages[0];
        (At(s.(messages := s.messages[1..], delivered := s.delivered + [m]), i, Copying(m)), GoesOn)
    case Copying(m) =>
      (At(s, i, Freeing(m.block)),
       if m.block < |s.memory| && s.memory[m.block].Payload? then Received(s.memory[m.block].datum, m.prio) else GoesOn)
    case Freeing(b) => (At(s.(free := [b] + s.free, memory := Store(s.memory, b, Junk)), i, Returning), GoesOn)
    case Returning => if s.tokens >= s.capacity then (s, ReleaseError) else (At(s, i, Crediting), GoesOn)
    case Crediting => (At(s.(tokens := s.tokens + 1), i, Idle), Done)
  }

  function Store(memory: seq<Cell>, b: Block, c: Cell): (r: seq<Cell>)
    ensures |r| == |memory| && forall j :: 0 <= j < |r| ==> r[j] == if j == b then c else memory[j]
  {
    if b < |memory| then memory[b := c] else memory
  }

  // ----- counting threads and blocks

  /** Who has taken a token without the block it stands for, and who has returned a block but not yet its token. */
  datatype Class = Takers | Freers | Getters | Putters

  predicate Counts(p: Phase, c: Class) {
    match c
    case Takers => p.Popping?
    case Freers => p.Returning? || p.Crediting?
    case Getters => p.Removing?
    case Putters => p.Publishing? || p.Adding?
  }

  function Number(ts: seq<Thread>, c: Class): nat {
    if ts == [] then 0 else (if Counts(ts[0].phase, c) then 1 else 0) + Number(ts[1..], c)
  }

  /** How often `b` occurs among the blocks that a thread works on or keeps. */
  function Hand(t: Thread, b: Block): nat {
    multiset(t.held)[b] +
    (match t.phase
     case Writing(_, _, b') => if b' == b then 1 else 0
     case Inserting(_, _, b') => if b' == b then 1 else 0
     case Copying(m) => if m.block == b then 1 else 0
     case Freeing(b') => if b' == b then 1 else 0
     case _ => 0)
  }

  function Hands(ts: seq<Thread>, b: Block): nat {
    if ts == [] then 0 else Hand(ts[0], b) + Hands(ts[1..], b)
  }

  function InMessages(q: seq<Message>, b: Block): nat {
    if q == [] then 0 else (if q[0].block == b then 1 else 0) + InMessages(q[1..], b)
  }

  lemma {:induction false} NumberUpdate(ts: seq<Thread>, i: nat, t: Thread, c: Class)
    requires i < |ts|
    ensures Number(ts[i := t], c) + (if Counts(ts[i].phase, c) then 1 else 0)
         == Number(ts, c) + (if Counts(t.phase, c) then 1 else 0)
  {
    if i == 0 {
      assert ts[0 := t] == [t] + ts[1..];
    } else {
      assert ts[i := t][1..] == ts[1..][i - 1 := t];
      NumberUpdate(ts[1..], i - 1, t, c);
    }
  }

  lemma {:induction false} HandsUpdate(ts: seq<Thread>, i: nat, t: Thread, b: Block)
    requires i < |ts|
    ensures Hands(ts[i := t], b) + Hand(ts[i], b) == Hands(ts, b) + Hand(t, b)
  {
    if i == 0 {
      assert ts[0 := t] == [t] + ts[1..];
    } else {
      assert ts[i := t][1..] == ts[1..][i - 1 := t];
      HandsUpdate(ts[1..], i - 1, t, b);
    }
  }

  lemma {:induction false} InHands(ts: seq<Thread>, i: nat, b: Block)
    requires i < |ts|
    ensures Hand(ts[i], b) <= Hands(ts, b)
  {
    if i > 0 { InHands(ts[1..], i - 1, b); }
  }

  lemma {:induction false} TwoHands(ts: seq<Thread>, i: nat, j: nat, b: Block)
    requires i < |ts| && j < |ts| && i != j
    ensures Hand(ts[i], b) + Hand(ts[j], b) <= Hands(ts, b)
  {
    if i == 0 {
      InHands(ts[1..], j - 1, b);
    } else if j == 0 {
      InHands(ts[1..], i - 1, b);
    } else {
      TwoHands(ts[1..], i - 1, j - 1, b);
    }
  }

  lemma {:induction false} InMessagesInsert(q: seq<Message>, i: nat, m: Message, b: Block)
    requires i <= |q|
    ensures InMessages(InsertAt(q, i, m), b) == InMessages(q, b) + if m.block == b then 1 else 0
  {
    if i == 0 {
      assert InsertAt(q, 0, m) == [m] + q;
    } else {
      assert InsertAt(q, i, m) == [q[0]] + InsertAt(q[1..], i - 1, m);
      InMessagesInsert(q[1..], i - 1, m, b);
    }
  }

  lemma {:induction false} InMessagesTwo(q: seq<Message>, i: nat, j: nat, b: Block)
    requires i < |q| && j < |q| && i != j && q[i].block == b && q[j].block == b
    ensures InMessages(q, b) >= 2
  {
    if i == 0 {
      InMessagesOne(q[1..], j - 1, b);
    } else if j == 0 {
      InMessagesOne(q[1..], i - 1, b);
    } else {
      InMessagesTwo(q[1..], i - 1, j - 1, b);
    }
  }

  lemma {:induction false} InMessagesOne(q: seq<Message>, i: nat, b: Block)
    requires i < |q| && q[i].block == b
    ensures InMessages(q, b) >= 1
  {
    if i > 0 { InMessagesOne(q[1..], i - 1, b); }
  }

  // ----- the invariant

  /** Block `b` is in one place: free, in a message, or in the hands of one thread, unless it does not exist. */
  predicate OnePlace(s: State, b: Block) {
    multiset(s.free)[b] + InMessages(s.messages, b) + Hands(s.threads, b) == if b < s.capacity then 1 else 0
  }

  /** `m` goes before `n`: of higher priority, or inserted earlier. */
  predicate Before(m: Message, n: Message) {
    m.prio > n.prio || (m.prio == n.prio && m.stamp < n.stamp)
  }

  ghost predicate Ordered(q: seq<Message>, clock: nat) {
    && (forall i, j :: 0 <= i < j < |q| ==> Before(q[i], q[j]))
    && (forall i :: 0 <= i < |q| ==> q[i].stamp < clock)
  }

  predicate Stored(memory: seq<Cell>, m: Message) {
    m.block < |memory| && memory[m.block] == Payload(m.datum)
  }

  /** What a thread has in its hands is really in memory. */
  predicate ThreadOk(s: State, i: nat)
    requires i < |s.threads|
  {
    match s.threads[i].phase
    case Inserting(prio, datum, b) => b < |s.memory| && s.memory[b] == Payload(datum)
    case Copying(m) => Stored(s.memory, m)
    case _ => true
  }

  ghost predicate Inv(s: State) {
    && |s.memory| == s.capacity
    && |s.free| == s.tokens + Number(s.threads, Takers) + Number(s.threads, Freers)
    && |s.messages| == s.data + Number(s.threads, Getters) + Number(s.threads, Putters)
    && (forall b :: OnePlace(s, b))
    && Ordered(s.messages, s.clock)
    && (forall j :: 0 <= j < |s.messages| ==> Stored(s.memory, s.messages[j]))
    && (forall j :: 0 <= j < |s.threads| ==> ThreadOk(s, j))
  }

  // ----- every step keeps the invariant

  /** Blocks popped from or pushed on the free list without their token. */
  function PoolDebt(p: Phase): nat {
    (if Counts(p, Takers) then 1 else 0) + (if Counts(p, Freers) then 1 else 0)
  }

  function DataDebt(p: Phase): nat {
    (if Counts(p, Getters) then 1 else 0) + (if Counts(p, Putters) then 1 else 0)
  }

  /** One thread moves; tokens, lists and hands balance. */
  lemma Balanced(s: State, s': State, i: nat, t: Thread)
    requires Inv(s) && i < |s.threads| && s'.threads == s.threads[i := t] && s'.capacity == s.capacity
    requires |s'.free| + s.tokens + PoolDebt(s.threads[i].phase) == |s.free| + s'.tokens + PoolDebt(t.phase)
    requires |s'.messages| + s.data + DataDebt(s.threads[i].phase) == |s.messages| + s'.data + DataDebt(t.phase)
    requires forall b :: multiset(s'.free)[b] + InMessages(s'.messages, b) + Hand(t, b)
                      == multiset(s.free)[b] + InMessages(s.messages, b) + Hand(s.threads[i], b)
    requires Ordered(s'.messages, s'.clock) && |s'.memory| == s.capacity
    requires forall j :: 0 <= j < |s'.messages| ==> Stored(s'.memory, s'.messages[j])
    requires forall j :: 0 <= j < |s'.threads| ==> ThreadOk(s', j)
    ensures Inv(s')
  {
    NumberUpdate(s.threads, i, t, Takers);
    NumberUpdate(s.threads, i, t, Freers);
    NumberUpdate(s.threads, i, t, Getters);
    NumberUpdate(s.threads, i, t, Putters);
    forall b ensures OnePlace(s', b) {
      HandsUpdate(s.threads, i, t, b);
      assert OnePlace(s, b);
    }
  }

  /** A block in the hands of one thread may be overwritten. */
  lemma Overwritten(s: State, i: nat, b: Block, c: Cell)
    requires Inv(s) && i < |s.threads| && Hand(s.threads[i], b) >= 1
    ensures b < s.capacity
    ensures var memory := Store(s.memory, b, c);
            && (forall j :: 0 <= j < |s.messages| ==> Stored(memory, s.messages[j]))
            && (forall j :: 0 <= j < |s.threads| && j != i ==> ThreadOk(s.(memory := memory), j))
  {
    assert OnePlace(s, b);
    InHands(s.threads, i, b);
    var memory := Store(s.memory, b, c);
    forall j | 0 <= j < |s.messages| ensures Stored(memory, s.messages[j]) {
      if s.messages[j].block == b { InMessagesOne(s.messages, j, b); }
    }
    forall j | 0 <= j < |s.threads| && j != i ensures ThreadOk(s.(memory := memory), j) {
      assert ThreadOk(s, j);
      TwoHands(s.threads, i, j, b);
    }
  }

  lemma {:induction false} NumberAtLeast(ts: seq<Thread>, i: nat, c: Class)
    requires i < |ts| && Counts(ts[i].phase, c)
    ensures Number(ts, c) >= 1
  {
    if i > 0 { NumberAtLeast(ts[1..], i - 1, c); }
  }

  /** There is no more than one of each block, so the lists are no longer than the pool. */
  lemma ListsFit(s: State)
    requires Inv(s)
    ensures |s.free| <= s.capacity && |s.messages| <= s.capacity
  {
    var all := Below(s.capacity);
    BelowSize(s.capacity);
    forall i, j | 0 <= i < j < |s.free| ensures s.free[i] != s.free[j] {
      assert OnePlace(s, s.free[i]);
      TwiceIn(s.free, i, j);
    }
    forall i | 0 <= i < |s.free| ensures s.free[i] in all {
      assert OnePlace(s, s.free[i]);
      assert s.free[i] in multiset(s.free);
    }
    NoDupBound(s.free, all);
    var q := seq(|s.messages|, (i: nat) requires i < |s.messages| => s.messages[i].block);
    forall i, j | 0 <= i < j < |q| ensures q[i] != q[j] {
      assert OnePlace(s, q[i]);
      if q[i] == q[j] { InMessagesTwo(s.messages, i, j, q[i]); }
    }
    forall i | 0 <= i < |q| ensures q[i] in all {
      assert OnePlace(s, q[i]);
      InMessagesOne(s.messages, i, q[i]);
    }
    NoDupBound(q, all);
  }

  lemma TwiceIn(q: seq<Block>, i: nat, j: nat)
    requires i < j < |q|
    ensures q[i] == q[j] ==> multiset(q)[q[i]] >= 2
  {
    if q[i] == q[j] {
      assert q == q[..j] + [q[j]] + q[j + 1..];
      assert q[i] in q[..j];
      assert multiset(q) == multiset(q[..j]) + multiset{q[j]} + multiset(q[j + 1..]);
    }
  }

  function Below(n: nat): set<Block> {
    if n == 0 then {} else Below(n - 1) + {n - 1}
  }

  lemma {:induction false} BelowSize(n: nat)
    ensures |Below(n)| == n && forall b: Block :: b in Below(n) <==> b < n
  {
    if n > 0 { BelowSize(n - 1); }
  }

  // the steps of the pool

  /** A step that changes the phase of one thread and at most one counter. */
  lemma CounterStep(s: State, i: nat, phase: Phase, tokens: nat, data: nat)
    requires Inv(s) && i < |s.threads|
    requires s.tokens + PoolDebt(s.threads[i].phase) == tokens + PoolDebt(phase)
    requires s.data + DataDebt(s.threads[i].phase) == data + DataDebt(phase)
    requires forall b :: Hand(s.threads[i].(phase := phase), b) == Hand(s.threads[i], b)
    requires !phase.Inserting? && !phase.Copying?
    ensures Inv(At(s.(tokens := tokens, data := data), i, phase))
  {
    var s' := At(s.(tokens := tokens, data := data), i, phase);
    forall j | 0 <= j < |s'.threads| ensures ThreadOk(s', j) {
      assert ThreadOk(s, j);
    }
    Balanced(s, s', i, s'.threads[i]);
  }

  lemma PopStep(s: State, i: nat)
    requires Inv(s) && i < |s.threads| && s.threads[i].phase.Popping?
    ensures s.free != [] && Inv(Step(s, i, true).0)
  {
    NumberAtLeast(s.threads, i, Takers);
    var b0 := s.free[0];
    var s' := Step(s, i, true).0;
    assert s.free == [b0] + s.free[1..];
    assert multiset(s.free) == multiset{b0} + multiset(s.free[1..]);
    forall j | 0 <= j < |s'.threads| ensures ThreadOk(s', j) {
      assert ThreadOk(s, j);
    }
    Balanced(s, s', i, s'.threads[i]);
  }

  lemma PushStep(s: State, i: nat)
    requires Inv(s) && i < |s.threads| && s.threads[i].phase.Freeing?
    ensures Inv(Step(s, i, true).0)
  {
    var b0 := s.threads[i].phase.b;
    var s' := Step(s, i, true).0;
    Overwritten(s, i, b0, Junk);
    assert multiset([b0] + s.free) == multiset{b0} + multiset(s.free);
    forall j | 0 <= j < |s'.threads| ensures ThreadOk(s', j) {
      if j != i { assert ThreadOk(s.(memory := s'.memory), j); }
    }
    Balanced(s, s', i, s'.threads[i]);
  }

  lemma WriteStep(s: State, i: nat)
    requires Inv(s) && i < |s.threads| && s.threads[i].phase.Writing?
    ensures Inv(Step(s, i, true).0)
  {
    var b0 := s.threads[i].phase.b;
    var s' := Step(s, i, true).0;
    Overwritten(s, i, b0, Payload(s.threads[i].phase.datum));
    forall j | 0 <= j < |s'.threads| ensures ThreadOk(s', j) {
      if j != i { assert ThreadOk(s.(memory := s'.memory), j); }
    }
    Balanced(s, s', i, s'.threads[i]);
  }

  // the steps on the list of messages

  lemma InsertStep(s: State, i: nat)
    requires Inv(s) && i < |s.threads| && s.threads[i].phase.Inserting?
    ensures Inv(Step(s, i, true).0)
  {
    var p := s.threads[i].phase;
    var m := Message(p.b, p.prio, p.datum, s.clock);
    var s' := Step(s, i, true).0;
    var k := Place(s.messages, p.prio);
    assert ThreadOk(s, i);
    InsertOrdered(s.messages, m, s.clock);
    forall b ensures InMessages(s'.messages, b) == InMessages(s.messages, b) + if b == p.b then 1 else 0 {
      InMessagesInsert(s.messages, k, m, b);
    }
    forall j | 0 <= j < |s'.messages| ensures Stored(s'.memory, s'.messages[j]) {
      if j != k { assert s'.messages[j] == s.messages[if j < k then j else j - 1]; }
    }
    forall j | 0 <= j < |s'.threads| ensures ThreadOk(s', j) {
      assert ThreadOk(s, j);
    }
    Balanced(s, s', i, s'.threads[i]);
  }

  lemma InsertOrdered(q: seq<Message>, m: Message, clock: nat)
    requires Ordered(q, clock) && m.stamp == clock
    ensures Ordered(InsertAt(q, Place(q, m.prio), m), clock + 1)
  {
    var k := Place(q, m.prio);
    var r := InsertAt(q, k, m);
    assert forall j :: 0 <= j < |r| ==> r[j] == if j < k then q[j] else if j == k then m else q[j - 1];
    forall i, j | 0 <= i < j < |r| ensures Before(r[i], r[j]) {
      if i == k && j > k + 1 { assert Before(q[k], q[j - 1]); }
    }
  }

  lemma RemoveStep(s: State, i: nat)
    requires Inv(s) && i < |s.threads| && s.threads[i].phase.Removing?
    ensures s.messages != [] && Inv(Step(s, i, true).0)
  {
    NumberAtLeast(s.threads, i, Getters);
    var s' := Step(s, i, true).0;
    forall j | 0 <= j < |s'.threads| ensures ThreadOk(s', j) {
      assert ThreadOk(s, j);
    }
    Balanced(s, s', i, s'.threads[i]);
  }

  lemma CopyStep(s: State, i: nat)
    requires Inv(s) && i < |s.threads| && s.threads[i].phase.Copying?
    ensures Inv(Step(s, i, true).0)
    ensures var m := s.threads[i].phase.m; Step(s, i, true).1 == Received(m.datum, m.prio)
  {
    assert ThreadOk(s, i);
    CounterStep(s, i, Freeing(s.threads[i].phase.m.block), s.tokens, s.data);
  }

  /** The tests of the semaphores never find them full. */
  lemma RoomLeft(s: State, i: nat)
    requires Inv(s) && i < |s.threads|
    ensures s.threads[i].phase.Returning? || s.threads[i].phase.Crediting? ==> s.tokens < s.capacity
    ensures s.threads[i].phase.Publishing? || s.threads[i].phase.Adding? ==> s.data < s.capacity
  {
    ListsFit(s);
    if s.threads[i].phase.Returning? || s.threads[i].phase.Crediting? {
      NumberAtLeast(s.threads, i, Freers);
    } else if s.threads[i].phase.Publishing? || s.threads[i].phase.Adding? {
      NumberAtLeast(s.threads, i, Putters);
    }
  }

  predicate Harmless(outcome: Outcome) {
    !outcome.NullBlock? && !outcome.SyncError? && !outcome.ReleaseError?
  }

  lemma PoolStepKeeps(s: State, i: nat, patient: bool)
    requires Inv(s) && i < |s.threads|
    requires var p := s.threads[i].phase; p.Taking? || p.Popping? || p.Freeing? || p.Returning? || p.Crediting?
    ensures Inv(Step(s, i, patient).0) && Harmless(Step(s, i, patient).1)
  {
    hide Inv, InsertAt, Place, Store;
    RoomLeft(s, i);
    match s.threads[i].phase
    case Taking(want) =>
      if !patient { CounterStep(s, i, Idle, s.tokens, s.data); }
      else if s.tokens > 0 { CounterStep(s, i, Popping(want), s.tokens - 1, s.data); }
    case Popping(_) => PopStep(s, i);
    case Freeing(_) => PushStep(s, i);
    case Returning => CounterStep(s, i, Crediting, s.tokens, s.data);
    case Crediting => CounterStep(s, i, Idle, s.tokens + 1, s.data);
  }

  lemma DataStepKeeps(s: State, i: nat, patient: bool)
    requires Inv(s) && i < |s.threads|
    requires var p := s.threads[i].phase; p.Publishing? || p.Adding? || p.Fetching? || p.Removing? || p.Copying?
    ensures Inv(Step(s, i, patient).0) && Harmless(Step(s, i, patient).1)
  {
    hide Inv, InsertAt, Place, Store;
    RoomLeft(s, i);
    match s.threads[i].phase
    case Publishing => CounterStep(s, i, Adding, s.tokens, s.data);
    case Adding => CounterStep(s, i, Idle, s.tokens, s.data + 1);
    case Fetching =>
      if !patient { CounterStep(s, i, Idle, s.tokens, s.data); }
      else if s.data > 0 { CounterStep(s, i, Removing, s.tokens, s.data - 1); }
    case Removing => RemoveStep(s, i);
    case Copying(_) => CopyStep(s, i);
  }

  /**
   The accounting holds after every step, and the branches that the code takes for impossible are: a block is
   there to be popped, a message is there to be popped, and no release finds its semaphore full.
   */
  lemma StepKeeps(s: State, i: nat, patient: bool)
    requires Inv(s) && i < |s.threads|
    ensures Inv(Step(s, i, patient).0) && Harmless(Step(s, i, patient).1)
  {
    hide Inv, InsertAt, Place, Store;
    match s.threads[i].phase
    case Idle =>
    case Writing(_, _, _) => WriteStep(s, i);
    case Inserting(_, _, _) => InsertStep(s, i);
    case _ =>
      var p := s.threads[i].phase;
      if p.Taking? || p.Popping? || p.Freeing? || p.Returning? || p.Crediting? {
        PoolStepKeeps(s, i, patient);
      } else {
        DataStepKeeps(s, i, patient);
      }
  }

  lemma FreeBegins(s: State, i: nat, k: nat)
    requires Inv(s) && MayBegin(s, i, Free(k))
    ensures Inv(Begin(s, i, Free(k)))
  {
    var s' := Begin(s, i, Free(k));
    var held := s.threads[i].held;
    assert held == held[..k] + [held[k]] + held[k + 1..];
    assert multiset(held) == multiset(RemoveAt(held, k)) + multiset{held[k]};
    forall j | 0 <= j < |s'.threads| ensures ThreadOk(s', j) {
      assert ThreadOk(s, j);
    }
    Balanced(s, s', i, s'.threads[i]);
  }

  lemma BeginKeeps(s: State, i: nat, r: Request)
    requires Inv(s) && MayBegin(s, i, r)
    ensures Inv(Begin(s, i, r))
  {
    hide Inv;
    match r
    case Put(prio, datum) => CounterStep(s, i, Taking(Send(prio, datum)), s.tokens, s.data);
    case Get => CounterStep(s, i, Fetching, s.tokens, s.data);
    case Alloc => CounterStep(s, i, Taking(Keep), s.tokens, s.data);
    case Free(k) => FreeBegins(s, i, k);
  }

  // ----- delivery

  /** How many of `q` carry the stamp `n`. */
  function Stamped(q: seq<Message>, n: nat): nat {
    if q == [] then 0 else (if q[0].stamp == n then 1 else 0) + Stamped(q[1..], n)
  }

  /** Every message that was ever inserted is queued or has been delivered, once. */
  predicate Once(s: State, n: nat) {
    Stamped(s.messages, n) + Stamped(s.delivered, n) == if n < s.clock then 1 else 0
  }

  ghost predicate Ledger(s: State) {
    forall n: nat :: Once(s, n)
  }

  lemma {:induction false} StampedInsert(q: seq<Message>, i: nat, m: Message, n: nat)
    requires i <= |q|
    ensures Stamped(InsertAt(q, i, m), n) == Stamped(q, n) + if m.stamp == n then 1 else 0
  {
    if i == 0 {
      assert InsertAt(q, 0, m) == [m] + q;
    } else {
      assert InsertAt(q, i, m) == [q[0]] + InsertAt(q[1..], i - 1, m);
      StampedInsert(q[1..], i - 1, m, n);
    }
  }

  lemma LedgerKept(s: State, i: nat, patient: bool, n: nat)
    requires Once(s, n) && i < |s.threads|
    ensures Once(Step(s, i, patient).0, n)
  {
    hide InsertAt, Place, Store;
    match s.threads[i].phase
    case Inserting(prio, datum, b) =>
      StampedInsert(s.messages, Place(s.messages, prio), Message(b, prio, datum, s.clock), n);
    case Removing =>
      if s.messages != [] {
        StampedInsert(s.delivered, |s.delivered|, s.messages[0], n);
        InsertLast(s.delivered, s.messages[0]);
      }
    case _ =>
      assert Step(s, i, patient).0.messages == s.messages;
  }

  lemma InsertLast(q: seq<Message>, m: Message)
    ensures InsertAt(q, |q|, m) == q + [m]
  {}

  // ----- whole runs

  datatype Event = Enter(i: nat, r: Request) | Move(i: nat, patient: bool)

  predicate Possible(s: State, e: Event) {
    match e
    case Enter(i, r) => MayBegin(s, i, r)
    case Move(i, _) => i < |s.threads|
  }

  function Happen(s: State, e: Event): (State, Outcome)
    requires Possible(s, e)
  {
    match e
    case Enter(i, r) => (Begin(s, i, r), GoesOn)
    case Move(i, patient) => Step(s, i, patient)
  }

  /** All blocks are free, nothing is queued and every thread is idle. */
  ghost predicate Start(s: State) {
    && |s.memory| == s.capacity && s.tokens == s.capacity && |s.free| == s.capacity
    && (forall b :: multiset(s.free)[b] == if b < s.capacity then 1 else 0)
    && s.data == 0 && s.messages == [] && s.delivered == [] && s.clock == 0
    && (forall i :: 0 <= i < |s.threads| ==> s.threads[i] == Thread(Idle, []))
  }

  ghost predicate Leads(s: State, run: seq<Event>, s': State)
    decreases |run|
  {
    if run == [] then s' == s else Possible(s, run[0]) && Leads(Happen(s, run[0]).0, run[1..], s')
  }

  lemma {:induction false} IdleHands(ts: seq<Thread>, b: Block)
    requires forall i :: 0 <= i < |ts| ==> ts[i] == Thread(Idle, [])
    ensures Hands(ts, b) == 0
    ensures forall c :: Number(ts, c) == 0
  {
    if ts != [] { IdleHands(ts[1..], b); }
  }

  lemma StartInv(s: State)
    requires Start(s)
    ensures Inv(s) && Ledger(s)
  {
    forall b ensures OnePlace(s, b) {
      IdleHands(s.threads, b);
    }
    IdleHands(s.threads, 0);
  }

  lemma {:induction false} RunKeeps(s: State, run: seq<Event>, s': State)
    requires Inv(s) && Ledger(s) && Leads(s, run, s')
    ensures Inv(s') && Ledger(s')
    decreases |run|
  {
    hide Inv, Once, Step;
    if run != [] {
      match run[0] {
        case Enter(i, r) =>
          BeginKeeps(s, i, r);
          BeginLedger(s, i, r);
        case Move(i, patient) =>
          StepKeeps(s, i, patient);
          forall n: nat ensures Once(Step(s, i, patient).0, n) {
            assert Once(s, n);
            LedgerKept(s, i, patient, n);
          }
      }
      RunKeeps(Happen(s, run[0]).0, run[1..], s');
    }
  }

  lemma BeginLedger(s: State, i: nat, r: Request)
    requires Ledger(s) && MayBegin(s, i, r)
    ensures Ledger(Begin(s, i, r))
  {
    forall n: nat ensures Once(Begin(s, i, r), n) {
      assert Once(s, n);
    }
  }

  /**
   Accounting, over every interleaving: the free blocks are the pool tokens plus the threads between token and
   pop and those between push and token; the queued messages are the data tokens plus the getters before their
   pop and the putters before their token; every block is in exactly one place; and whatever step comes next,
   none of the branches for a missing block, a missing message or a full semaphore is taken.
   */
  lemma Accounting(s0: State, run: seq<Event>, s: State, b: Block, i: nat, patient: bool)
    requires Start(s0) && Leads(s0, run, s)
    ensures |s.free| == s.tokens + Number(s.threads, Takers) + Number(s.threads, Freers)
    ensures |s.messages| == s.data + Number(s.threads, Getters) + Number(s.threads, Putters)
    ensures multiset(s.free)[b] + InMessages(s.messages, b) + Hands(s.threads, b) == if b < s.capacity then 1 else 0
    ensures i < |s.threads| ==> Harmless(Step(s, i, patient).1)
  {
    hide Leads, Start, Step;
    StartInv(s0);
    RunKeeps(s0, run, s);
    assert OnePlace(s, b);
    if i < |s.threads| { StepKeeps(s, i, patient); }
  }

  /**
   A stable priority queue, over every interleaving: a getter that pops takes the message that was inserted
   first among those of the highest priority, no message is lost or delivered twice, and what the getter later
   copies out is what the putter wrote.
   */
  lemma StablePriorityQueue(s0: State, run: seq<Event>, s: State, i: nat, j: nat, n: nat)
    requires Start(s0) && Leads(s0, run, s) && i < |s.threads|
    ensures s.threads[i].phase.Removing? ==>
              && s.messages != []
              && Step(s, i, true).0.delivered == s.delivered + [s.messages[0]]
              && Step(s, i, true).0.threads[i].phase == Copying(s.messages[0])
              && (0 < j < |s.messages| ==> Before(s.messages[0], s.messages[j]))
    ensures s.threads[i].phase.Copying? ==>
              var m := s.threads[i].phase.m; Step(s, i, true).1 == Received(m.datum, m.prio)
    ensures Stamped(s.messages, n) + Stamped(s.delivered, n) == if n < s.clock then 1 else 0
  {
    hide Leads, Start;
    StartInv(s0);
    RunKeeps(s0, run, s);
    assert Once(s, n);
    if s.threads[i].phase.Removing? { RemoveStep(s, i); }
    if s.threads[i].phase.Copying? { CopyStep(s, i); }
  }
}
