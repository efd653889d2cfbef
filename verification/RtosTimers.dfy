/** The timers of the RTOS layer: a list ordered by target tick, walked by the tick hook, and a dispatch queue. */
module RtosTimers {
  import opened Types
  import opened Sequences

  type Timer = nat

  datatype Status = Ok | ErrorParameter | ErrorResource

  ghost predicate Ordered(list: seq<Timer>, target: map<Timer, nat>) {
    && NoDup(list)
    && (forall i :: 0 <= i < |list| ==> list[i] in target)
    && (forall i, j :: 0 <= i < j < |list| ==> target[list[i]] <= target[list[j]])
  }

  lemma LinkOrdered(list: seq<Timer>, target: map<Timer, nat>, t: Timer, i: nat)
    requires Ordered(list, target) && t in target && t !in list
    requires i <= |list| && (forall k :: 0 <= k < i ==> target[list[k]] <= target[t]) && (i < |list| ==> target[list[i]] > target[t])
    ensures Ordered(InsertAt(list, i, t), target)
    ensures forall u :: u in InsertAt(list, i, t) <==> u == t || u in list
  {
    var r := InsertAt(list, i, t);
    InsertAtMembers(list, i, t);
    assert forall k :: 0 <= k < |r| ==> r[k] == if k < i then list[k] else if k == i then t else list[k - 1];
    forall k, j | 0 <= k < j < |r| ensures target[r[k]] <= target[r[j]] && r[k] != r[j] {
      if k == i && j > i + 1 { assert target[list[i]] <= target[list[j - 1]]; }
    }
  }

  lemma TailOrdered(list: seq<Timer>, target: map<Timer, nat>)
    requires Ordered(list, target) && list != []
    ensures Ordered(list[1..], target)
    ensures forall u :: u in list[1..] <==> u in list && u != list[0]
  {
    forall u ensures u in list[1..] <==> u in list && u != list[0] {
      if u in list && u != list[0] {
        var i :| 0 <= i < |list| && list[i] == u;
        assert list[1..][i - 1] == u;
      }
    }
  }

  /** A list keeps its order when other timers get new targets. */
  lemma OtherTarget(list: seq<Timer>, target: map<Timer, nat>, t: Timer, when: nat)
    requires Ordered(list, target) && t !in list
    ensures Ordered(list, target[t := when])
  {
    assert forall i :: 0 <= i < |list| ==> list[i] in list;
  }

  /** A re-armed timer is later than the current tick exactly when the 32-bit tick count does not wrap before it. */
  lemma RearmedIsLater(now: nat, period: nat)
    requires now < WORD && 0 < period < WORD
    ensures (now + period) % WORD > now <==> now + period < WORD
  {}

  /** The state of the timers, as values: the linked ones in order, targets, periods, and which are periodic. */
  datatype Book = Book(periodic: set<Timer>, active: seq<Timer>, target: map<Timer, nat>, period: map<Timer, nat>)
  {
    predicate Due(t: Timer, now: nat) {
      t in active && t in target && target[t] <= now
    }

    /** A periodic timer whose next target does not fit the tick counter: it wraps, and is due at once. */
    predicate Wraps(t: Timer, now: nat) {
      t in periodic && t in period && now + period[t] >= WORD
    }
  }

  /**
   How `t` stands in `b'`, after `done` have been posted since `b`: a posted timer was due, and is linked again, for a
   later tick, exactly if it is periodic; any other timer is untouched.
   */
  predicate Served(b: Book, b': Book, now: nat, done: seq<Timer>, t: Timer) {
    && (t in b'.active ==> t in b.active && t in b'.target)
    && (t in done ==> t in b.active && t in b.target && b.target[t] <= now && t in b.period && (t in b'.active <==> t in b.periodic))
    && (t in done && t in b.periodic ==> t in b'.target && b'.target[t] == now + b.period[t] && 0 < b.period[t])
    && (t in b.active && t !in done ==> t in b'.active && t in b.target && t in b'.target && b'.target[t] == b.target[t])
  }

  /** How far the hook has come: a timer that wraps stays due, any other one is served. */
  ghost predicate Progress(b: Book, b': Book, now: nat, done: seq<Timer>) {
    && b' == b.(active := b'.active, target := b'.target)
    && (forall t :: !b.Wraps(t, now) ==> Served(b, b', now, done, t))
    && (forall t :: b.Wraps(t, now) ==> (b'.Due(t, now) <==> b.Due(t, now)))
    && (forall i, j :: 0 <= i < j < |done| && done[i] == done[j] ==> b.Wraps(done[i], now))
    && (forall t :: t in done ==> b.Due(t, now))
    && (forall t :: t in b'.active ==> t in b'.target)
  }

  /** What a round of the hook does to the first timer `t`. */
  ghost predicate Round(b: Book, b': Book, now: nat, taken: bool, t: Timer) {
    && b.active != [] && t == b.active[0] && b.Due(t, now) && t in b.period && 0 < b.period[t] < WORD
    && b' == b.(active := b'.active, target := b'.target)
    && b'.target == (if !taken || t in b.periodic then b.target[t := (now + if taken then b.period[t] else 0) % WORD] else b.target)
    && (forall u :: u in b'.active <==> u in b.active && (u != t || !taken || t in b.periodic))
    && (forall u :: u in b'.active ==> u in b'.target)
  }

  /** The first timer is due in either sense. */
  lemma FirstDue(b: Book, b': Book, now: nat, done: seq<Timer>, t: Timer)
    requires Progress(b, b', now, done) && b'.Due(t, now)
    ensures b.Due(t, now) && (!b.Wraps(t, now) ==> t !in done)
  {
    if !b.Wraps(t, now) { assert Served(b, b', now, done, t); }
  }

  lemma Advances(b: Book, b': Book, b'': Book, now: nat, done: seq<Timer>, t: Timer)
    requires Progress(b, b', now, done) && Round(b', b'', now, true, t) && now < WORD
    ensures Progress(b, b'', now, done + [t])
  {
    FirstDue(b, b', now, done, t);
    assert forall u :: u in done + [t] <==> u == t || u in done;
    forall u | !b.Wraps(u, now) ensures Served(b, b'', now, done + [t], u) {
      assert Served(b, b', now, done, u);
    }
  }

  /** The timer that the queue refuses is linked again, due at once; the others are as they were. */
  lemma Refused(b: Book, b': Book, b'': Book, now: nat, done: seq<Timer>, t: Timer)
    requires Progress(b, b', now, done) && Round(b', b'', now, false, t) && now < WORD
    ensures forall u :: u != t && !b.Wraps(u, now) ==> Served(b, b'', now, done, u)
    ensures b.Due(t, now) && t in b''.active && t in b''.target && b''.target[t] == now && (t in done ==> b.Wraps(t, now))
  {
    FirstDue(b, b', now, done, t);
    forall u | u != t && !b.Wraps(u, now) ensures Served(b, b'', now, done, u) {
      assert Served(b, b', now, done, u);
    }
  }

  /** Once the first timer is not due, none is, and none was that wraps. */
  lemma NoneDue(b: Book, b': Book, now: nat, done: seq<Timer>)
    requires Progress(b, b', now, done) && Ordered(b'.active, b'.target)
    requires b'.active != [] ==> b'.active[0] in b'.target && now < b'.target[b'.active[0]]
    ensures forall t :: !b'.Due(t, now)
    ensures forall t :: b.Due(t, now) ==> !b.Wraps(t, now)
  {
    FirstIsEarliest(b'.active, b'.target);
  }

  class ActiveTimers {
    const periodic: set<Timer>
    var active: seq<Timer>
    var target: map<Timer, nat>
    var period: map<Timer, nat>
    /** What has been put on the dispatch queue. */
    var posted: seq<Timer>

    ghost predicate Valid()
      reads this
    {
      Ordered(active, target) && forall t :: t in active ==> t in period && 0 < period[t] < WORD
    }

    ghost function View(): Book
      reads this
    {
      Book(periodic, active, target, period)
    }

    constructor (periodic: set<Timer>)
      ensures Valid() && active == [] && posted == [] && this.periodic == periodic
    {
      this.periodic := periodic;
      active, target, period, posted := [], map[], map[], [];
    }

    /** The ordered insertion of `osTimerStart` and of the tick hook. */
    method Link(t: Timer)
      requires Valid() && t !in active && t in target && t in period && 0 < period[t] < WORD
      modifies this`active
      ensures Valid()
      ensures old(forall k :: 0 <= k < |active| ==> active[k] in target)
      ensures active == InsertAt(old(active), FirstLater(target, old(active), target[t]), t)
      ensures forall u :: u in active <==> u == t || u in old(active)
    {
      var i := 0;
      while i < |active| && target[active[i]] <= target[t]
        invariant 0 <= i <= |active| && active == old(active)
        invariant forall k :: 0 <= k < i ==> target[active[k]] <= target[t]
      {
        i := i + 1;
      }
      FirstLaterIs(target, active, target[t], i);
      LinkOrdered(active, target, t, i);
      active := InsertAt(active, i, t);
    }

    /** `osTimerStart`, on a timer that is not running. */
    method Start(t: Timer, ticks: nat, now: nat) returns (status: Status)
      requires Valid() && t !in active && ticks < WORD
      modifies this`active, this`target, this`period
      ensures Valid()
      ensures status == if ticks == 0 || ticks == WAIT_FOREVER then ErrorParameter else Ok
      ensures status == ErrorParameter ==> active == old(active) && target == old(target) && period == old(period)
      ensures status == Ok ==>
                && target == old(target)[t := (now + ticks) % WORD] && period == old(period)[t := ticks]
                && forall u :: u in active <==> u == t || u in old(active)
    {
      if ticks == 0 || ticks == WAIT_FOREVER {
        return ErrorParameter;
      }
      OtherTarget(active, target, t, (now + ticks) % WORD);
      period := period[t := ticks];
      target := target[t := (now + ticks) % WORD];
      Link(t);
      return Ok;
    }

    /** `osTimerStop` */
    method Stop(t: Timer) returns (status: Status)
      requires Valid()
      modifies this`active
      ensures Valid()
      ensures status == if t in old(active) then Ok else ErrorResource
      ensures forall u :: u in active <==> u in old(active) && u != t
    {
      if t !in active {
        return ErrorResource;
      }
      WithoutMembers(active, t);
      ghost var list, i := active, IndexOf(active, t);
      active := Without(active, t);
      forall k, j | 0 <= k < j < |active| ensures target[active[k]] <= target[active[j]] {
        assert active[k] == list[if k < i then k else k + 1] && active[j] == list[if j < i then j else j + 1];
      }
      forall k | 0 <= k < |active| ensures active[k] in target {
        assert active[k] in active;
      }
      return Ok;
    }

    /** One round of the hook: the first timer is posted, if the queue takes it, and linked again if need be. */
    method ExpireFirst(now: nat, taken: bool) returns (t: Timer)
      requires Valid() && active != []
      modifies this`active, this`target, this`posted
      ensures Valid() && t == old(active)[0]
      ensures posted == if taken then old(posted) + [t] else old(posted)
      ensures target == if !taken || t in periodic
                        then old(target)[t := (now + if taken then period[t] else 0) % WORD] else old(target)
      ensures forall u :: u in active <==> u in old(active) && (u != t || !taken || t in periodic)
      ensures t in old(target) && old(target)[t] <= now && now < WORD ==> Round(old(View()), View(), now, taken, t)
    {
      hide Ordered, InsertAt, FirstLater;
      t := active[0];
      InTarget(active, target);
      NoTwice(active, target);
      var when := (now + if taken then period[t] else 0) % WORD;
      TailOrdered(active, target);
      OtherTarget(active[1..], target, t, when);
      active := active[1..];
      if taken {
        posted := posted + [t];
      }
      if !taken || t in periodic {
        target := target[t := when];
        Link(t);
      }
    }

    /**
     The tick hook on core 0; the dispatch queue takes `room` timers before it is full. Every due timer is posted once,
     unless the queue is found full: then the refused timer is still linked, due at once, and the remaining ones wait for
     the next tick. Only a timer whose next target wraps is posted more than once; while there is one the hook goes on
     until the queue is full.
     */
    method TickHook(now: nat, room: nat) returns (refused: Option<Timer>, ghost done: seq<Timer>)
      requires Valid() && now < WORD
      modifies this`active, this`target, this`posted
      ensures Valid() && posted == old(posted) + done && |done| <= room
      ensures forall i, j :: 0 <= i < j < |done| && done[i] == done[j] ==> old(View()).Wraps(done[i], now)
      ensures forall t: Timer :: t in done ==> old(View()).Due(t, now)
      ensures forall t: Timer :: refused != Some(t) && !old(View()).Wraps(t, now) ==> Served(old(View()), View(), now, done, t)
      ensures refused.None? ==> forall t :: !View().Due(t, now)
      ensures refused.Some? ==>
                var t := refused.value;
                && |done| == room && old(View()).Due(t, now) && t in active && t in target && target[t] == now
                && (t in done ==> old(View()).Wraps(t, now))
      ensures (exists t :: old(View()).Due(t, now) && old(View()).Wraps(t, now)) ==> refused.Some?
    {
      hide Ordered, Served, Book.Wraps, Book.Due, Round;
      refused, done := None, [];
      ghost var b := View();
      var left := room;
      Begins(b, now);
      while active != [] && target[active[0]] <= now
        invariant Valid() && posted == old(posted) + done && |done| + left == room
        invariant Progress(b, View(), now, done)
        decreases left
      {
        ghost var b' := View();
        var taken := left > 0;
        InTarget(active, target);
        var t := ExpireFirst(now, taken);
        if !taken {
          Refused(b, b', View(), now, done, t);
          refused := Some(t);
          return;
        }
        Advances(b, b', View(), now, done, t);
        done := done + [t];
        left := left - 1;
      }
      NoneDue(b, View(), now, done);
    }
  }

  lemma Begins(b: Book, now: nat)
    requires Ordered(b.active, b.target)
    ensures Progress(b, b, now, [])
  {
    InTarget(b.active, b.target);
  }

  lemma NoTwice(list: seq<Timer>, target: map<Timer, nat>)
    requires Ordered(list, target) && list != []
    ensures list[0] in list && list[0] !in list[1..]
  {}

  lemma InTarget(list: seq<Timer>, target: map<Timer, nat>)
    requires Ordered(list, target)
    ensures forall t :: t in list ==> t in target
  {}

  lemma FirstIsEarliest(list: seq<Timer>, target: map<Timer, nat>)
    requires Ordered(list, target)
    ensures forall t :: t in list ==> t in target && target[list[0]] <= target[t]
  {}
}
