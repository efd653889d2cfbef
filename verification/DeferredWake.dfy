/**
 Wakes from interrupt handlers: a handler puts the futex, tagged with the wake-all bit, into the first free slot of its
 core and counts it as given; the context switch walks the slots, performs what it finds and counts it as taken. The
 walk stops as soon as the two 32-bit counters agree. Handlers interrupt the walk between any two of its accesses.
 */
module DeferredWake {
  import opened Types

  /** A tagged futex address; 0 is an empty slot. */
  type Wake = nat

  /** Where a handler's search ends: at the first slot that is empty or already holds the same wake. */
  function Find(slots: seq<Wake>, w: Wake): (i: nat)
    ensures i <= |slots|
    ensures forall j :: 0 <= j < i ==> slots[j] != 0 && slots[j] != w
    ensures i < |slots| ==> slots[i] == 0 || slots[i] == w
  {
    if slots == [] || slots[0] == 0 || slots[0] == w then 0 else 1 + Find(slots[1..], w)
  }

  lemma {:induction false} FindAt(slots: seq<Wake>, w: Wake, i: nat)
    requires i <= |slots| && forall j :: 0 <= j < i ==> slots[j] != 0 && slots[j] != w
    requires i < |slots| ==> slots[i] == 0 || slots[i] == w
    ensures Find(slots, w) == i
  {
    if i > 0 { FindAt(slots[1..], w, i - 1); }
  }

  /** The walk: about to compare the counters, to empty slot `i`, to perform what it held, to count it. */
  datatype Pc = Away | Testing(i: nat) | Swapping(i: nat) | Performing(i: nat, w: Wake) | Counting(i: nat)

  /** `accepted` and `performed` are histories. */
  datatype State = State(slots: seq<Wake>, given: nat, taken: nat, pc: Pc, accepted: multiset<Wake>, performed: multiset<Wake>)

  datatype Verdict = Stored | Already | NoSpace

  function Post(s: State, w: Wake): (r: (State, Verdict))
    requires w != 0
  {
    var i := Find(s.slots, w);
    if i == |s.slots| then (s, NoSpace)
    else if s.slots[i] == w then (s, Already)
    else (s.(slots := s.slots[i := w], given := (s.given + 1) % WORD, accepted := s.accepted + multiset{w}), Stored)
  }

  /** The next access of the walk. */
  function Go(s: State): State {
    match s.pc
    case Away => s.(pc := Testing(0))
    case Testing(i) => s.(pc := if s.taken != s.given && i < |s.slots| then Swapping(i) else Away)
    case Swapping(i) =>
      if i >= |s.slots| then s
      else s.(slots := s.slots[i := 0], pc := if s.slots[i] != 0 then Performing(i, s.slots[i]) else Testing(i + 1))
    case Performing(i, w) => s.(performed := s.performed + multiset{w}, pc := Counting(i))
    case Counting(i) => s.(taken := (s.taken + 1) % WORD, pc := Testing(i + 1))
  }

  function Occupied(slots: seq<Wake>): (n: nat)
    ensures n <= |slots|
  {
    if slots == [] then 0 else (if slots[0] != 0 then 1 else 0) + Occupied(slots[1..])
  }

  /** How many slots hold `w`. */
  function Held(slots: seq<Wake>, w: Wake): nat {
    if slots == [] then 0 else (if slots[0] == w then 1 else 0) + Held(slots[1..], w)
  }

  /** Taken out of a slot, not yet counted. */
  function Uncounted(pc: Pc): nat { if pc.Performing? || pc.Counting? then 1 else 0 }

  function InHand(pc: Pc, w: Wake): nat { if pc.Performing? && pc.w == w then 1 else 0 }

  /** Every accepted `w` has been performed, is in hand or sits in a slot. */
  predicate Conserved(s: State, w: Wake) {
    s.accepted[w] == s.performed[w] + Held(s.slots, w) + InHand(s.pc, w)
  }

  ghost predicate Inv(s: State) {
    && 0 < |s.slots| < WORD - 1 && s.given < WORD && s.taken < WORD
    && (s.taken + Occupied(s.slots) + Uncounted(s.pc)) % WORD == s.given
    && (forall w: Wake :: w != 0 ==> Conserved(s, w))
    && (s.pc.Swapping? ==> s.pc.i < |s.slots|)
  }

  lemma {:induction false} SlotChanged(slots: seq<Wake>, i: nat, w: Wake)
    requires i < |slots|
    ensures Occupied(slots[i := w]) + (if slots[i] != 0 then 1 else 0) == Occupied(slots) + (if w != 0 then 1 else 0)
  {
    if i == 0 {
      assert slots[0 := w] == [w] + slots[1..];
    } else {
      assert slots[i := w][1..] == slots[1..][i - 1 := w];
      SlotChanged(slots[1..], i - 1, w);
    }
  }

  lemma {:induction false} HeldChanged(slots: seq<Wake>, i: nat, w: Wake, v: Wake)
    requires i < |slots|
    ensures Held(slots[i := w], v) + (if slots[i] == v then 1 else 0) == Held(slots, v) + (if w == v then 1 else 0)
  {
    if i == 0 {
      assert slots[0 := w] == [w] + slots[1..];
    } else {
      assert slots[i := w][1..] == slots[1..][i - 1 := w];
      HeldChanged(slots[1..], i - 1, w, v);
    }
  }

  lemma {:induction false} NoneOccupied(slots: seq<Wake>)
    ensures Occupied(slots) == 0 <==> forall i :: 0 <= i < |slots| ==> slots[i] == 0
  {
    if slots != [] {
      NoneOccupied(slots[1..]);
      assert forall i :: 1 <= i < |slots| ==> slots[i] == slots[1..][i - 1];
      assert forall i :: 0 <= i < |slots| - 1 ==> slots[1..][i] == slots[i + 1];
    }
  }

  lemma Increment(x: nat, n: nat)
    requires x < WORD
    ensures (x + n + 1) % WORD == ((x + n) % WORD + 1) % WORD
    ensures ((x + 1) % WORD + n) % WORD == (x + n + 1) % WORD
  {}

  lemma PostKeeps(s: State, w: Wake)
    requires Inv(s) && w != 0
    ensures Inv(Post(s, w).0)
  {
    hide Held, Occupied;
    var i := Find(s.slots, w);
    if i < |s.slots| && s.slots[i] == 0 {
      var s' := Post(s, w).0;
      SlotChanged(s.slots, i, w);
      Increment(s.taken, Occupied(s.slots) + Uncounted(s.pc));
      forall v: Wake | v != 0 ensures Conserved(s', v) {
        assert Conserved(s, v);
        HeldChanged(s.slots, i, w, v);
      }
    }
  }

  lemma GoKeeps(s: State)
    requires Inv(s)
    ensures Inv(Go(s))
  {
    hide Held, Occupied;
    var s' := Go(s);
    if s.pc.Swapping? {
      SlotChanged(s.slots, s.pc.i, 0);
    } else if s.pc.Counting? {
      Increment(s.taken, Occupied(s.slots));
    }
    forall v: Wake | v != 0 ensures Conserved(s', v) {
      assert Conserved(s, v);
      if s.pc.Swapping? { HeldChanged(s.slots, s.pc.i, 0, v); }
    }
  }

  datatype Event = Interrupt(w: Wake) | Move

  ghost predicate Leads(s: State, run: seq<Event>, s': State)
    decreases |run|
  {
    if run == [] then s' == s
    else
      match run[0]
      case Interrupt(w) => w != 0 && Leads(Post(s, w).0, run[1..], s')
      case Move => Leads(Go(s), run[1..], s')
  }

  lemma {:induction false} RunKeeps(s: State, run: seq<Event>, s': State)
    requires Inv(s) && Leads(s, run, s')
    ensures Inv(s')
    decreases |run|
  {
    hide Inv, Post, Go;
    if run != [] {
      match run[0]
      case Interrupt(w) =>
        PostKeeps(s, w);
        RunKeeps(Post(s, w).0, run[1..], s');
      case Move =>
        GoKeeps(s);
        RunKeeps(Go(s), run[1..], s');
    }
  }

  ghost predicate Start(s: State) {
    && 0 < |s.slots| < WORD - 1 && (forall i :: 0 <= i < |s.slots| ==> s.slots[i] == 0)
    && s.given < WORD && s.taken == s.given && s.pc == Away && s.accepted == multiset{} && s.performed == multiset{}
  }

  lemma {:induction false} EmptyHeld(slots: seq<Wake>)
    requires forall i :: 0 <= i < |slots| ==> slots[i] == 0
    ensures Occupied(slots) == 0 && forall w: Wake :: w != 0 ==> Held(slots, w) == 0
  {
    if slots != [] { EmptyHeld(slots[1..]); }
  }

  /**
   Conservation, however handlers interrupt the walk and refill slots behind it: at every test of the loop the occupied
   slots are given minus taken modulo 2^32, so the walk leaves early only when every slot is empty, and when it leaves at
   the end with something in a slot, the counters differ and the next walk starts; every accepted wake has been
   performed, is in hand, or sits in a slot.
   */
  lemma WakesAreConserved(s0: State, run: seq<Event>, s: State, w: Wake)
    requires Start(s0) && Leads(s0, run, s) && w != 0
    ensures s.pc.Testing? || s.pc.Away? ==> (s.taken + Occupied(s.slots)) % WORD == s.given
    ensures s.pc.Testing? || s.pc.Away? ==> (s.taken == s.given <==> forall i :: 0 <= i < |s.slots| ==> s.slots[i] == 0)
    ensures s.pc.Testing? && s.pc.i < |s.slots| && Go(s).pc.Away? ==> forall i :: 0 <= i < |s.slots| ==> s.slots[i] == 0
    ensures s.accepted[w] == s.performed[w] + Held(s.slots, w) + InHand(s.pc, w)
  {
    hide Leads;
    EmptyHeld(s0.slots);
    RunKeeps(s0, run, s);
    NoneOccupied(s.slots);
    assert Conserved(s, w);
  }

  /** A handler is refused exactly when every slot holds another wake; a repeated wake still waits to be performed. */
  lemma RefusedExactly(s: State, w: Wake)
    requires w != 0
    ensures Post(s, w).1 == NoSpace <==> forall i :: 0 <= i < |s.slots| ==> s.slots[i] != 0 && s.slots[i] != w
    ensures Post(s, w).1 == Already ==> w in s.slots && Post(s, w).0 == s
    ensures Post(s, w).1 == Stored ==> w in Post(s, w).0.slots
  {
    var i := Find(s.slots, w);
    if i < |s.slots| {
      assert Post(s, w).0.slots[i] == w;
    }
  }
}
