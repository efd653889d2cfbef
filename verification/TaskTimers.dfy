/** The scheduler's timeout list: tasks ordered by expiry tick, with the earliest expiry cached. */
module TaskTimers {
  import opened Types
  import opened Sequences

  /** `expires` is each task's `timer_expires`; `cached` is the scheduler's own `timer_expires`. */
  datatype Timers = Timers(expires: map<TaskId, nat>, list: seq<TaskId>, cached: nat)

  ghost predicate SortedBy(expires: map<TaskId, nat>, list: seq<TaskId>) {
    && (forall i :: 0 <= i < |list| ==> list[i] in expires)
    && (forall i, j :: 0 <= i < j < |list| ==> expires[list[i]] <= expires[list[j]])
  }

  /** The deadline the tick handler compares against. */
  function Earliest(expires: map<TaskId, nat>, list: seq<TaskId>): nat
    requires forall i :: 0 <= i < |list| ==> list[i] in expires
  {
    if list == [] then UINT_MAX else expires[list[0]]
  }

  ghost predicate Good(m: Timers) {
    && NoDup(m.list)
    && SortedBy(m.expires, m.list)
    && m.cached == Earliest(m.expires, m.list)
    && (forall t :: t in m.expires ==> m.expires[t] <= UINT_MAX)
  }

  /** Tick arithmetic is 32 bits wide. */
  function Deadline(now: nat, delay: nat): (d: nat)
    ensures d <= UINT_MAX
  {
    (now + delay) % WORD
  }

  lemma UnlinkGood(expires: map<TaskId, nat>, list: seq<TaskId>, t: TaskId)
    requires NoDup(list) && SortedBy(expires, list)
    ensures NoDup(Without(list, t)) && SortedBy(expires, Without(list, t))
    ensures forall u :: u in Without(list, t) <==> u in list && u != t
  {
    WithoutMembers(list, t);
    if t in list {
      var i := IndexOf(list, t);
      var r := Without(list, t);
      forall k, j | 0 <= k < j < |r| ensures r[k] in expires && r[j] in expires && expires[r[k]] <= expires[r[j]] {
        assert r[k] == list[if k < i then k else k + 1] && r[j] == list[if j < i then j else j + 1];
      }
      forall k | 0 <= k < |r| ensures r[k] in expires {
        assert r[k] == list[if k < i then k else k + 1];
      }
    }
  }

  lemma LinkPair(expires: map<TaskId, nat>, list: seq<TaskId>, t: TaskId, k: nat, j: nat)
    requires NoDup(list) && SortedBy(expires, list) && t in expires && t !in list && k < j <= |list|
    ensures var r := InsertAt(list, FirstLater(expires, list, expires[t]), t);
            r[k] in expires && r[j] in expires && r[k] != r[j] && expires[r[k]] <= expires[r[j]]
  {
    hide NoDup, FirstLater;
    var i := FirstLater(expires, list, expires[t]);
    var r := InsertAt(list, i, t);
    assert r[k] == if k < i then list[k] else if k == i then t else list[k - 1];
    assert r[j] == if j < i then list[j] else if j == i then t else list[j - 1];
    if k != i && j != i { Distinct(list, if k < i then k else k - 1, if j < i then j else j - 1); }
  }

  lemma Distinct(list: seq<TaskId>, k: nat, j: nat)
    requires NoDup(list) && k < j < |list|
    ensures list[k] != list[j]
  {}

  lemma LinkGood(expires: map<TaskId, nat>, list: seq<TaskId>, t: TaskId)
    requires NoDup(list) && SortedBy(expires, list) && t in expires && t !in list
    ensures var r := InsertAt(list, FirstLater(expires, list, expires[t]), t);
            && r != [] && NoDup(r) && SortedBy(expires, r)
            && forall u :: u in r <==> u == t || u in list
  {
    var i := FirstLater(expires, list, expires[t]);
    InsertAtMembers(list, i, t);
    var r := InsertAt(list, i, t);
    forall k, j | 0 <= k < j < |r| ensures r[k] != r[j] && r[k] in expires && r[j] in expires && expires[r[k]] <= expires[r[j]] {
      LinkPair(expires, list, t, k, j);
    }
    forall k | 0 <= k < |r| ensures r[k] in expires {
      if k < |list| { LinkPair(expires, list, t, k, |list|); } else if 0 < |list| { LinkPair(expires, list, t, 0, k); }
    }
  }

  /** A timer list without `t` takes `t` with a new deadline. */
  lemma Rearmed(m: Timers, t: TaskId, e: nat)
    requires Good(m) && e <= UINT_MAX
    ensures var list, expires := Without(m.list, t), m.expires[t := e];
            && (forall k :: 0 <= k < |list| ==> list[k] in expires)
            && var linked := InsertAt(list, FirstLater(expires, list, e), t);
               && linked != [] && linked[0] in expires && Good(Timers(expires, linked, expires[linked[0]]))
               && forall u :: u in linked <==> u == t || u in m.list
  {
    hide NoDup, Without, InsertAt, FirstLater;
    var list, expires := Without(m.list, t), m.expires[t := e];
    UnlinkGood(m.expires, m.list, t);
    forall k | 0 <= k < |list| ensures list[k] in expires && expires[list[k]] == m.expires[list[k]] {
      assert list[k] in list;
    }
    LinkGood(expires, list, t);
  }

  /** Arm `t`'s timer, replacing one that is already running. */
  function Push(m: Timers, t: TaskId, now: nat, delay: nat): (r: Timers)
    requires Good(m)
    ensures Good(r) && r.expires == m.expires[t := Deadline(now, delay)]
    ensures forall u :: u in r.list <==> u == t || u in m.list
  {
    hide NoDup, SortedBy, Without, InsertAt, FirstLater;
    var list := Without(m.list, t);
    var expires := m.expires[t := Deadline(now, delay)];
    Rearmed(m, t, Deadline(now, delay));
    var linked := InsertAt(list, FirstLater(expires, list, expires[t]), t);
    Timers(expires, linked, expires[linked[0]])
  }

  /** Disarm `t`'s timer, running or not. */
  function Remove(m: Timers, t: TaskId): (r: Timers)
    requires Good(m)
    ensures Good(r) && r.expires == m.expires
    ensures forall u :: u in r.list <==> u in m.list && u != t
  {
    var list := Without(m.list, t);
    UnlinkGood(m.expires, m.list, t);
    Timers(m.expires, list, Earliest(m.expires, list))
  }

  predicate Due(deadline: nat, tick: nat) {
    deadline <= tick
  }

  /** Is the head of the list due at tick `now`? */
  predicate HeadDue(m: Timers, now: nat)
    requires Good(m)
  {
    m.list != [] && Due(m.expires[m.list[0]], now)
  }

  /** The cached deadline has passed exactly when some running timer is due (or the tick counter is saturated). */
  lemma CachedTellsDue(m: Timers, now: nat)
    requires Good(m) && now < UINT_MAX
    ensures m.cached <= now <==> exists t :: t in m.list && Due(m.expires[t], now)
  {
    if m.cached <= now {
      assert m.list[0] in m.list;
    }
  }

  /** A timer armed at tick `now` is due at exactly the ticks from `now + delay` on, unless that sum wraps. */
  lemma DueExactly(now: nat, delay: nat)
    requires now < WORD && delay < WORD
    ensures (forall k :: now <= k < WORD ==> (Due(Deadline(now, delay), k) <==> now + delay <= k)) <==> now + delay < WORD
  {
    if now + delay >= WORD {
      assert Due(Deadline(now, delay), now);
    }
  }
}
