/**
 The atomic operations of the two cores: sixteen two-bit locks packed into one 32-bit scratch register, a lock
 chosen by the address of the object, and read-modify-write operations inside it. One step is one access of the
 register or of the object.
 */
module PackedLock {

  /** The lock index of an address: stripes of four bytes, sixteen locks. */
  function Index(addr: nat): (r: bv32)
    ensures r < 16
  {
    ((addr / 4) % 16) as bv32
  }

  function Other(core: bv32): (r: bv32)
    requires core < 2
    ensures r < 2 && r != core
  {
    1 - core
  }

  predicate Bit(reg: bv32, pos: bv32)
    requires pos < 32
  {
    (reg >> pos) & 1 == 1
  }

  function Place(index: bv32, core: bv32): (r: bv32)
    requires index < 16 && core < 2
    ensures r < 32
  {
    2 * index + core
  }

  /** `hw_set_bits` and `hw_clear_bits` change one bit atomically. */
  function Set(reg: bv32, pos: bv32): bv32
    requires pos < 32
  {
    reg | ((1 as bv32) << pos)
  }

  function Clear(reg: bv32, pos: bv32): bv32
    requires pos < 32
  {
    reg & !((1 as bv32) << pos)
  }

  lemma SetOne(reg: bv32, p: bv32, q: bv32)
    requires p < 32 && q < 32
    ensures Bit(Set(reg, p), q) <==> p == q || Bit(reg, q)
  {}

  lemma ClearOne(reg: bv32, p: bv32, q: bv32)
    requires p < 32 && q < 32
    ensures Bit(Clear(reg, p), q) <==> p != q && Bit(reg, q)
  {}

  /** The test of the code: of the two bits of the lock exactly one's own is set. */
  predicate OnlyMine(reg: bv32, index: bv32, core: bv32)
    requires index < 16 && core < 2
  {
    var position := 2 * index;
    reg & ((3 as bv32) << position) == (1 as bv32) << Place(index, core)
  }

  lemma OnlyMineExactly(reg: bv32, index: bv32, core: bv32)
    requires index < 16 && core < 2
    ensures OnlyMine(reg, index, core) <==> Bit(reg, Place(index, core)) && !Bit(reg, Place(index, Other(core)))
  {}

  lemma PlaceDistinct(i: bv32, c: bv32, j: bv32, d: bv32)
    requires i < 16 && j < 16 && c < 2 && d < 2
    ensures Place(i, c) == Place(j, d) <==> i == j && c == d
  {}

  // ----- the operations

  datatype Width = Byte | Half | Word | Double

  function Bits(w: Width): nat {
    match w case Byte => 8 case Half => 16 case Word => 32 case Double => 64
  }

  /** The number of values of an object. */
  function Size(w: Width): (n: nat)
    ensures n >= 256
  {
    match w case Byte => 0x100 case Half => 0x1_0000 case Word => 0x1_0000_0000 case Double => 0x1_0000_0000_0000_0000
  }

  datatype Kind =
    | FetchAdd(v: nat) | FetchSub(v: nat) | FetchAnd(v: nat) | FetchOr(v: nat)
    | Exchange(v: nat) | CompareExchange(expected: nat, desired: nat) | Store(v: nat) | Load8

  datatype Op = Op(addr: nat, width: Width, kind: Kind)

  /** The operands are values of the object's type, and the one load that takes a lock is that of eight bytes. */
  predicate Typed(op: Op) {
    match op.kind
    case CompareExchange(expected, desired) => expected < Size(op.width) && desired < Size(op.width)
    case Load8 => op.width.Double?
    case kind => kind.v < Size(op.width)
  }

  function And(x: nat, y: nat): nat {
    if x == 0 || y == 0 then 0 else 2 * And(x / 2, y / 2) + (if x % 2 == 1 && y % 2 == 1 then 1 else 0)
  }

  function Or(x: nat, y: nat): nat {
    if x == 0 then y
    else if y == 0 then x
    else 2 * Or(x / 2, y / 2) + (if x % 2 == 1 || y % 2 == 1 then 1 else 0)
  }

  /** The value of an operation's object that contained `found`, afterwards. */
  function New(op: Op, found: nat): nat {
    match op.kind
    case FetchAdd(v) => (found + v) % Size(op.width)
    case FetchSub(v) => (found - v) % Size(op.width)
    case FetchAnd(v) => And(found, v)
    case FetchOr(v) => Or(found, v)
    case Exchange(v) => v
    case CompareExchange(expected, desired) => if found == expected then desired else found
    case Store(v) => v
    case Load8 => found
  }

  /** What a call returns; a compare-exchange that fails hands back what it has seen. */
  datatype Answer = Nothing | Value(v: nat) | Swapped | Seen(v: nat)

  function Reply(op: Op, found: nat): Answer {
    match op.kind
    case CompareExchange(expected, _) => if found == expected then Swapped else Seen(found)
    case Store(_) => Nothing
    case Load8 => Value(found % Size(Word))
    case _ => Value(found)
  }

  /** The memory from an address on, as one number, least significant byte first. */
  type Memory = map<nat, nat>

  function Load(memory: Memory, addr: nat): nat {
    if addr in memory then memory[addr] else 0
  }

  /** The object of that width. */
  function Contents(memory: Memory, addr: nat, w: Width): (v: nat)
    ensures v < Size(w)
  {
    Load(memory, addr) % Size(w)
  }

  /** Writing it leaves the bytes behind it alone. */
  function Merge(w: Width, cell: nat, v: nat): nat {
    cell - cell % Size(w) + v
  }

  function Effect(op: Op, cell: nat): nat {
    Merge(op.width, cell, New(op, cell % Size(op.width)))
  }

  // ----- the steps of a core

  datatype Pc =
    | Idle
    | Setting(op: Op)                // about to set its bit
    | Testing(op: Op)                // about to read the register
    | Backing(op: Op)                // has lost, about to clear its bit
    | Entered(op: Op)                // has the lock, about to read the object
    | Loaded(op: Op, cell: nat)        // about to write the object
    | Leaving(op: Op, answer: Answer)  // about to clear its bit and to return

  /** One operation that has been done: whose it is, the value it has found and what it returns. */
  datatype Entry = Entry(core: bv32, op: Op, found: nat, answer: Answer)

  /** The two cores, the lock register, the objects; `log` lists the operations in the order of their writes. */
  datatype State = State(reg: bv32, memory: Memory, zero: Pc, one: Pc, log: seq<Entry>)
  {
    function Core(c: bv32): Pc { if c == 0 then zero else one }

    function With(c: bv32, pc: Pc): State { if c == 0 then this.(zero := pc) else this.(one := pc) }
  }

  /** Core `c` starts an operation. */
  function Begin(s: State, c: bv32, op: Op): State { s.With(c, Setting(op)) }

  function Step(s: State, c: bv32): State
    requires c < 2
  {
    match s.Core(c)
    case Idle => s
    case Setting(op) => s.(reg := Set(s.reg, Place(Index(op.addr), c))).With(c, Testing(op))
    case Testing(op) => s.With(c, if OnlyMine(s.reg, Index(op.addr), c) then Entered(op) else Backing(op))
    case Backing(op) => s.(reg := Clear(s.reg, Place(Index(op.addr), c))).With(c, Setting(op))
    case Entered(op) => s.With(c, Loaded(op, Load(s.memory, op.addr)))
    case Loaded(op, cell) =>
      var found := cell % Size(op.width);
      s.(memory := s.memory[op.addr := Effect(op, cell)], log := s.log + [Entry(c, op, found, Reply(op, found))])
        .With(c, Leaving(op, Reply(op, found)))
    case Leaving(op, _) => s.(reg := Clear(s.reg, Place(Index(op.addr), c))).With(c, Idle)
  }

  // ----- the invariant

  predicate Flagged(pc: Pc, index: bv32) {
    (pc.Testing? || pc.Backing? || pc.Entered? || pc.Loaded? || pc.Leaving?) && Index(pc.op.addr) == index
  }

  predicate Inside(pc: Pc, index: bv32) {
    (pc.Entered? || pc.Loaded? || pc.Leaving?) && Index(pc.op.addr) == index
  }

  /** A bit of the register is set exactly while its core has it set for its lock. */
  predicate BitOk(s: State, index: bv32, c: bv32)
    requires index < 16 && c < 2
  {
    Bit(s.reg, Place(index, c)) <==> Flagged(s.Core(c), index)
  }

  /** The operations of the log, one after the other, from `init`. */
  function Replay(init: Memory, log: seq<Entry>): Memory {
    if log == [] then init
    else
      var before := Replay(init, log[..|log| - 1]);
      var op := log[|log| - 1].op;
      before[op.addr := Effect(op, Load(before, op.addr))]
  }

  /** Every operation of the log has found what the ones before it left. */
  ghost predicate Sequential(init: Memory, log: seq<Entry>) {
    forall i :: 0 <= i < |log| ==> log[i].found == Contents(Replay(init, log[..i]), log[i].op.addr, log[i].op.width)
  }

  ghost predicate BitsOk(s: State) {
    forall index: bv32, c: bv32 :: index < 16 && c < 2 ==> BitOk(s, index, c)
  }

  /** For each of the sixteen locks at most one core is inside. */
  ghost predicate Exclusive(s: State) {
    forall index: bv32, c: bv32 :: c < 2 && Inside(s.Core(c), index) ==> !Inside(s.Core(Other(c)), index)
  }

  /** The value that core `c` has loaded is still that of the object. */
  predicate Fresh(s: State, c: bv32) {
    s.Core(c).Loaded? ==> s.Core(c).cell == Load(s.memory, s.Core(c).op.addr)
  }

  ghost predicate Inv(init: Memory, s: State) {
    && BitsOk(s)
    && Exclusive(s)
    && Fresh(s, 0) && Fresh(s, 1)
    && Sequential(init, s.log)
    && Replay(init, s.log) == s.memory
  }

  /** A step of one core on its own bit leaves all the other bits right. */
  lemma BitsKept(s: State, s': State, c: bv32, pos: bv32)
    requires c < 2 && pos < 16
    requires BitsOk(s)
    requires s'.Core(Other(c)) == s.Core(Other(c))
    requires s'.reg == Set(s.reg, Place(pos, c)) || s'.reg == Clear(s.reg, Place(pos, c)) || s'.reg == s.reg
    requires forall index: bv32 :: index < 16 && index != pos ==> (Flagged(s'.Core(c), index) <==> Flagged(s.Core(c), index))
    requires BitOk(s', pos, c)
    ensures BitsOk(s')
  {
    hide Bit, Set, Clear, Place, Index;
    forall index: bv32, d: bv32 | index < 16 && d < 2 ensures BitOk(s', index, d) {
      assert BitOk(s, index, d);
      SetOne(s.reg, Place(pos, c), Place(index, d));
      ClearOne(s.reg, Place(pos, c), Place(index, d));
      PlaceDistinct(pos, c, index, d);
      TwoCores(c, d);
    }
  }

  lemma TwoCores(c: bv32, d: bv32)
    requires c < 2 && d < 2
    ensures d == c || d == Other(c)
    ensures d == 0 || d == 1
  {}

  lemma {:induction false} LogExtended(init: Memory, log: seq<Entry>, e: Entry)
    requires Sequential(init, log) && e.found == Contents(Replay(init, log), e.op.addr, e.op.width)
    ensures Sequential(init, log + [e])
    ensures Replay(init, log + [e]) == Replay(init, log)[e.op.addr := Effect(e.op, Load(Replay(init, log), e.op.addr))]
  {
    assert (log + [e])[..|log|] == log;
    forall i | 0 <= i < |log| + 1 ensures
      var x := (log + [e])[i]; x.found == Contents(Replay(init, (log + [e])[..i]), x.op.addr, x.op.width)
    {
      assert (log + [e])[..i] == log[..i];
    }
  }

  lemma BitsStep(s: State, c: bv32)
    requires BitsOk(s) && c < 2
    ensures BitsOk(Step(s, c))
  {
    hide Bit, Set, Clear, Place, Index, OnlyMine, Effect, Load;
    if !s.Core(c).Idle? {
      var index := Index(s.Core(c).op.addr);
      SetOne(s.reg, Place(index, c), Place(index, c));
      ClearOne(s.reg, Place(index, c), Place(index, c));
      assert BitOk(s, index, c);
      TwoCores(c, Other(c));
      BitsKept(s, Step(s, c), c, index);
    }
  }

  /** A core gets in only when the other one's bit is clear. */
  lemma ExclusiveStep(s: State, c: bv32)
    requires BitsOk(s) && Exclusive(s) && c < 2
    ensures Exclusive(Step(s, c))
  {
    hide Bit, Set, Clear, Place, Index, OnlyMine, Effect, Load;
    var s' := Step(s, c);
    TwoCores(c, Other(c));
    if !s.Core(c).Idle? {
      var mine := Index(s.Core(c).op.addr);
      OnlyMineExactly(s.reg, mine, c);
      assert BitOk(s, mine, Other(c));
    }
    forall index: bv32, d: bv32 | d < 2 && Inside(s'.Core(d), index) ensures !Inside(s'.Core(Other(d)), index) {
      TwoCores(c, d);
      TwoCores(c, Other(d));
    }
  }

  /** While one core is between its read and its write, the other one does not write the same object. */
  lemma FreshStep(s: State, c: bv32, d: bv32)
    requires Exclusive(s) && c < 2 && d < 2 && Fresh(s, d)
    ensures Fresh(Step(s, c), d)
  {
    hide Bit, Set, Clear, Place, Index, OnlyMine, Effect, Load;
    TwoCores(c, d);
    TwoCores(c, Other(c));
    if s.Core(c).Loaded? {
      var op := s.Core(c).op;
      assert Inside(s.Core(c), Index(op.addr));
      assert !Inside(s.Core(Other(c)), Index(op.addr));
      if s.Core(d).Loaded? { OtherObject(s.memory, op.addr, Effect(op, s.Core(c).cell), s.Core(d).op.addr); }
    }
  }

  lemma OtherObject(memory: Memory, addr: nat, v: nat, a: nat)
    ensures Load(memory[addr := v], a) == if a == addr then v else Load(memory, a)
  {}

  lemma StepKeeps(init: Memory, s: State, c: bv32)
    requires Inv(init, s) && c < 2
    ensures Inv(init, Step(s, c))
  {
    hide Bit, Set, Clear, Place, Index, OnlyMine, Replay, Sequential, Effect, Load, BitsOk, Exclusive;
    BitsStep(s, c);
    ExclusiveStep(s, c);
    FreshStep(s, c, 0);
    FreshStep(s, c, 1);
    TwoCores(0, c);
    if s.Core(c).Loaded? {
      var op := s.Core(c).op;
      var found := s.Core(c).cell % Size(op.width);
      LogExtended(init, s.log, Entry(c, op, found, Reply(op, found)));
    }
  }

  lemma BeginKeeps(init: Memory, s: State, c: bv32, op: Op)
    requires Inv(init, s) && c < 2 && s.Core(c).Idle?
    ensures Inv(init, Begin(s, c, op))
  {
    hide Bit, Place, Index, Replay, Sequential, Effect, Load;
    var s' := Begin(s, c, op);
    forall index: bv32, d: bv32 | index < 16 && d < 2 ensures BitOk(s', index, d) {
      assert BitOk(s, index, d);
      TwoCores(c, d);
    }
  }

  // ----- whole runs

  datatype Event = Start(c: bv32, op: Op) | Move(c: bv32)

  predicate Possible(s: State, e: Event) {
    e.c < 2 && (e.Start? ==> s.Core(e.c).Idle? && Typed(e.op))
  }

  function Happen(s: State, e: Event): State
    requires Possible(s, e)
  {
    match e
    case Start(c, op) => Begin(s, c, op)
    case Move(c) => Step(s, c)
  }

  ghost predicate Leads(s: State, run: seq<Event>, s': State)
    decreases |run|
  {
    if run == [] then s' == s else Possible(s, run[0]) && Leads(Happen(s, run[0]), run[1..], s')
  }

  lemma {:induction false} RunKeeps(init: Memory, s: State, run: seq<Event>, s': State)
    requires Inv(init, s) && Leads(s, run, s')
    ensures Inv(init, s')
    decreases |run|
  {
    hide Inv, Step, Begin;
    if run != [] {
      match run[0] {
        case Start(c, op) => BeginKeeps(init, s, c, op);
        case Move(c) => StepKeeps(init, s, c);
      }
      RunKeeps(init, Happen(s, run[0]), run[1..], s');
    }
  }

  function Boot(init: Memory): State { State(0, init, Idle, Idle, []) }

  lemma BootInv(init: Memory)
    ensures Inv(init, Boot(init))
  {
    forall index: bv32, c: bv32 | index < 16 && c < 2 ensures BitOk(Boot(init), index, c) {
      NoBits(Place(index, c));
    }
  }

  lemma NoBits(pos: bv32)
    requires pos < 32
    ensures !Bit(0, pos)
  {}

  /** For each lock at most one core is inside, after every run. */
  lemma MutualExclusion(init: Memory, run: seq<Event>, s: State, index: bv32)
    requires Leads(Boot(init), run, s)
    ensures !(Inside(s.Core(0), index) && Inside(s.Core(1), index))
  {
    hide Leads, BitsOk, Sequential, Replay;
    BootInv(init);
    RunKeeps(init, Boot(init), run, s);
    assert Other(0) == 1;
  }

  /**
   Linearizability: after any run the objects contain what the finished operations leave when they are done one
   after the other in the order of their writes, each of them finds in that order what it has found, and an operation
   enters that order between its start and its return.
   */
  lemma Linearizable(init: Memory, run: seq<Event>, s: State, i: nat, c: bv32)
    requires Leads(Boot(init), run, s) && c < 2
    ensures s.memory == Replay(init, s.log)
    ensures i < |s.log| ==> s.log[i].found == Contents(Replay(init, s.log[..i]), s.log[i].op.addr, s.log[i].op.width)
    ensures s.Core(c).Loaded? ==>
              var s' := Step(s, c); var op := s.Core(c).op; var found := Contents(s.memory, op.addr, op.width);
              && |s'.log| == |s.log| + 1 && s'.log[..|s.log|] == s.log
              && s'.log[|s.log|].core == c && s'.log[|s.log|].op == op && s'.log[|s.log|].found == found
              && s'.Core(c) == Leaving(op, s'.log[|s.log|].answer)
  {
    hide Leads, BitsOk, Exclusive, Effect;
    BootInv(init);
    RunKeeps(init, Boot(init), run, s);
  }

  /** Setting or clearing the bit of one lock never disturbs another lock, nor the other core's bit of the same one. */
  lemma LocksAreApart(reg: bv32, index: bv32, c: bv32, other: bv32, d: bv32)
    requires index < 16 && c < 2 && other < 16 && d < 2 && (index != other || c != d)
    ensures Bit(Set(reg, Place(index, c)), Place(other, d)) == Bit(reg, Place(other, d))
    ensures Bit(Clear(reg, Place(index, c)), Place(other, d)) == Bit(reg, Place(other, d))
    ensures index != other ==> OnlyMine(Set(reg, Place(index, c)), other, d) == OnlyMine(reg, other, d)
  {
    hide Bit, Set, Clear, Place, OnlyMine;
    forall e: bv32 | e < 2 && (index != other || c != e)
      ensures Bit(Set(reg, Place(index, c)), Place(other, e)) == Bit(reg, Place(other, e))
      ensures Bit(Clear(reg, Place(index, c)), Place(other, e)) == Bit(reg, Place(other, e))
    {
      PlaceDistinct(index, c, other, e);
      SetOne(reg, Place(index, c), Place(other, e));
      ClearOne(reg, Place(index, c), Place(other, e));
    }
    OnlyMineExactly(Set(reg, Place(index, c)), other, d);
    OnlyMineExactly(reg, other, d);
  }
}
