/** The deferred wakes of one core as the context switch finds them: slots with tagged futex addresses, and two counters. */
module Slots {
  import opened Types
  import opened Kernel
  import D = DeferredWake

  /** The slots of one core and its counters of wakes put in and taken out. */
  datatype Deferred = Deferred(slots: seq<D.Wake>, given: nat, taken: nat)

  /** The counters differ by the number of occupied slots, and only plain futexes are in the slots. */
  ghost predicate Tallied(d: Deferred, plain: set<FutexId>) {
    && 0 < |d.slots| < WORD - 1 && d.given < WORD && d.taken < WORD
    && (d.taken + D.Occupied(d.slots)) % WORD == d.given
    && forall i :: 0 <= i < |d.slots| && d.slots[i] != 0 ==> FutexOf(d.slots[i]) in plain
  }

  ghost predicate AllTallied(deferred: seq<Deferred>, plain: set<FutexId>) {
    forall c :: 0 <= c < |deferred| ==> Tallied(deferred[c], plain)
  }

  lemma TalliedMore(deferred: seq<Deferred>, plain: set<FutexId>, f: FutexId)
    requires AllTallied(deferred, plain)
    ensures AllTallied(deferred, plain + {f})
  {
    forall c | 0 <= c < |deferred| ensures Tallied(deferred[c], plain + {f}) {
      assert Tallied(deferred[c], plain);
    }
  }

  /** `n` empty slots. */
  function NoneDeferred(n: nat): Deferred { Deferred(seq(n, _ => 0), 0, 0) }

  lemma NoneTallied(n: nat)
    requires 0 < n < WORD - 1
    ensures Tallied(NoneDeferred(n), {})
  {
    D.EmptyHeld(NoneDeferred(n).slots);
  }

  const ENOSPC: int := 28

  /** Bit 0 of a futex address is free for the wake-all flag. */
  function Tagged(f: FutexId, all: bool): D.Wake { if all then f + 1 else f }

  function FutexOf(w: D.Wake): FutexId { w - w % 2 }

  /** What a slot asks for. */
  function WakeOf(w: D.Wake): seq<(FutexId, bool)> {
    if w == 0 then [] else [(FutexOf(w), w % 2 == 1)]
  }

  /** What the slots ask for, in slot order. */
  function Wakes(slots: seq<D.Wake>): seq<(FutexId, bool)> {
    if slots == [] then [] else WakeOf(slots[0]) + Wakes(slots[1..])
  }

  /** A tagged wake is found exactly as it was put in. */
  lemma TagRoundTrip(f: FutexId, all: bool, w: D.Wake)
    requires f > 0 && f % 2 == 0
    ensures WakeOf(w) == [(f, all)] <==> w == Tagged(f, all)
  {}

  lemma {:induction false} AskedFor(slots: seq<D.Wake>, f: FutexId, all: bool)
    requires f > 0 && f % 2 == 0
    ensures (f, all) in Wakes(slots) <==> Tagged(f, all) in slots
  {
    hide WakeOf, Tagged;
    if slots != [] {
      TagRoundTrip(f, all, slots[0]);
      AskedFor(slots[1..], f, all);
      assert slots == [slots[0]] + slots[1..];
      OneWake(slots[0], f, all);
    }
  }

  lemma OneWake(w: D.Wake, f: FutexId, all: bool)
    ensures (f, all) in WakeOf(w) <==> WakeOf(w) == [(f, all)]
  {}

  /** A wake that is posted is asked for at the next switch exactly if it is not refused, and no other one is touched. */
  lemma PostAsks(s: D.State, f: FutexId, all: bool, g: FutexId, b: bool)
    requires f > 0 && f % 2 == 0 && g > 0 && g % 2 == 0
    ensures Tagged(f, all) != 0
    ensures var (s', verdict) := D.Post(s, Tagged(f, all));
            && ((f, all) in Wakes(s'.slots) <==> verdict != D.NoSpace)
            && ((g, b) != (f, all) ==> ((g, b) in Wakes(s'.slots) <==> (g, b) in Wakes(s.slots)))
  {
    var w, s' := Tagged(f, all), D.Post(s, Tagged(f, all)).0;
    D.RefusedExactly(s, w);
    AskedFor(s'.slots, f, all);
    AskedFor(s'.slots, g, b);
    AskedFor(s.slots, g, b);
    if (g, b) != (f, all) {
      OthersKept(s.slots, s'.slots, D.Find(s.slots, w), w, Tagged(g, b));
    }
  }

  lemma OthersKept(slots: seq<D.Wake>, slots': seq<D.Wake>, i: nat, w: D.Wake, v: D.Wake)
    requires slots' == slots || (i < |slots| && slots[i] == 0 && slots' == slots[i := w])
    requires v != w && v != 0
    ensures v in slots' <==> v in slots
  {
    if v in slots {
      var j :| 0 <= j < |slots| && slots[j] == v;
      assert slots'[j] == v;
    }
  }

  lemma {:induction false} NoWakes(slots: seq<D.Wake>)
    requires forall i :: 0 <= i < |slots| ==> slots[i] == 0
    ensures Wakes(slots) == []
  {
    if slots != [] { NoWakes(slots[1..]); }
  }

  lemma PlainConcat(k: Kernel, a: seq<(FutexId, bool)>, b: seq<(FutexId, bool)>)
    requires PlainOnly(k, a) && PlainOnly(k, b)
    ensures PlainOnly(k, a + b)
  {
    assert forall i :: 0 <= i < |a + b| ==> (a + b)[i] == if i < |a| then a[i] else b[i - |a|];
  }

  lemma {:induction false} WakesArePlain(k: Kernel, slots: seq<D.Wake>, plain: set<FutexId>)
    requires forall f :: f in plain ==> f in k.futexes && k.futexes[f].kind.Plain?
    requires forall i :: 0 <= i < |slots| && slots[i] != 0 ==> FutexOf(slots[i]) in plain
    ensures PlainOnly(k, Wakes(slots))
  {
    if slots != [] {
      assert forall i :: 0 <= i < |slots| - 1 ==> slots[1..][i] == slots[i + 1];
      WakesArePlain(k, slots[1..], plain);
      PlainConcat(k, WakeOf(slots[0]), Wakes(slots[1..]));
    }
  }

  /** Emptying slot `i`, and counting what it held. */
  function Emptied(d: Deferred, i: nat): Deferred
    requires i < |d.slots|
  {
    d.(slots := d.slots[i := 0], taken := if d.slots[i] != 0 then (d.taken + 1) % WORD else d.taken)
  }

  lemma SlotTaken(d: Deferred, plain: set<FutexId>, i: nat)
    requires Tallied(d, plain) && i < |d.slots|
    ensures Tallied(Emptied(d, i), plain) && Emptied(d, i).slots[i + 1..] == d.slots[i + 1..]
  {
    hide D.Occupied;
    D.SlotChanged(d.slots, i, 0);
    D.Increment(d.taken, D.Occupied(d.slots[i := 0]));
  }

  /** A handler fills the empty slot `i` and counts it. */
  lemma SlotGiven(d: Deferred, plain: set<FutexId>, i: nat, w: D.Wake)
    requires Tallied(d, plain) && i < |d.slots| && d.slots[i] == 0 && w != 0 && FutexOf(w) in plain
    ensures Tallied(d.(slots := d.slots[i := w], given := (d.given + 1) % WORD), plain)
  {
    hide D.Occupied;
    D.SlotChanged(d.slots, i, w);
    D.Increment(d.taken, D.Occupied(d.slots));
  }

  /** The counters agree exactly when the slots are empty. */
  lemma SlotsTold(d: Deferred, plain: set<FutexId>)
    requires Tallied(d, plain)
    ensures d.taken == d.given <==> forall i :: 0 <= i < |d.slots| ==> d.slots[i] == 0
  {
    D.NoneOccupied(d.slots);
  }

  lemma WakePlainKeeps(k: Kernel, f: FutexId, all: bool)
    requires Sane(k) && f in k.futexes && k.futexes[f].kind.Plain?
    ensures WakeFutex(k, f, all).futexes == k.futexes
  {
    WakePlain(k, f, all);
  }

  lemma NothingDeferred(k: Kernel)
    requires Sane(k)
    ensures PlainOnly(k, []) && WakeDeferred(k, []) == k
  {}

  /** The wake of one plain futex. */
  lemma WakeOfIs(k: Kernel, w: D.Wake)
    requires Sane(k) && (w != 0 ==> FutexOf(w) in k.futexes && k.futexes[FutexOf(w)].kind.Plain?)
    ensures PlainOnly(k, WakeOf(w))
    ensures WakeDeferred(k, WakeOf(w)) == if w == 0 then k else WakeFutex(k, FutexOf(w), w % 2 == 1)
  {
    hide WakeFutex;
    if w != 0 {
      WakePlainKeeps(k, FutexOf(w), w % 2 == 1);
      NothingDeferred(WakeFutex(k, FutexOf(w), w % 2 == 1));
      assert WakeOf(w)[1..] == [];
    }
  }

  /** The wakes of slot `i` come before those of the later slots. */
  lemma WakesFrom(k: Kernel, slots: seq<D.Wake>, i: nat)
    requires Sane(k) && i < |slots| && PlainOnly(k, Wakes(slots[i..]))
    ensures PlainOnly(k, WakeOf(slots[i])) && PlainOnly(WakeDeferred(k, WakeOf(slots[i])), Wakes(slots[i + 1..]))
    ensures WakeDeferred(k, Wakes(slots[i..])) == WakeDeferred(WakeDeferred(k, WakeOf(slots[i])), Wakes(slots[i + 1..]))
  {
    hide WakeFutex;
    var w, rest := slots[i], Wakes(slots[i + 1..]);
    assert slots[i..][0] == w && slots[i..][1..] == slots[i + 1..];
    var all := WakeOf(w) + rest;
    assert Wakes(slots[i..]) == all;
    if w == 0 {
      assert all == rest;
      NothingDeferred(k);
    } else {
      assert all[0] == (FutexOf(w), w % 2 == 1) && all[1..] == rest;
      assert forall j :: 0 <= j < |rest| ==> all[j + 1] == rest[j];
      WakeOfIs(k, w);
      WakePlainKeeps(k, FutexOf(w), w % 2 == 1);
    }
  }
}
