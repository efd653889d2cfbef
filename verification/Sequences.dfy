/** Sequence operations behind the linked lists of the scheduler and of the RTOS layer. */
module Sequences {

  ghost predicate NoDup<T>(s: seq<T>) {
    forall i, j :: 0 <= i < j < |s| ==> s[i] != s[j]
  }

  function IndexOf<T(==)>(s: seq<T>, x: T): (i: nat)
    requires x in s
    ensures i < |s| && s[i] == x
    ensures forall j :: 0 <= j < i ==> s[j] != x
  {
    if s[0] == x then 0 else 1 + IndexOf(s[1..], x)
  }

  function RemoveAt<T>(s: seq<T>, i: nat): seq<T>
    requires i < |s|
  {
    s[..i] + s[i + 1..]
  }

  function InsertAt<T>(s: seq<T>, i: nat, x: T): seq<T>
    requires i <= |s|
  {
    s[..i] + [x] + s[i..]
  }

  /** `s` with its first `x` unlinked; unlinking an element that is not there changes nothing. */
  function Without<T(==)>(s: seq<T>, x: T): seq<T> {
    if x in s then RemoveAt(s, IndexOf(s, x)) else s
  }

  lemma InsertAtMembers<T>(s: seq<T>, i: nat, x: T)
    requires i <= |s|
    ensures forall y :: y in InsertAt(s, i, x) <==> y == x || y in s
    ensures multiset(InsertAt(s, i, x)) == multiset(s) + multiset{x}
  {
    assert s == s[..i] + s[i..];
    forall y ensures y in InsertAt(s, i, x) <==> y == x || y in s {
      assert y in s <==> y in s[..i] + s[i..];
    }
  }

  lemma WithoutMembers<T>(s: seq<T>, x: T)
    requires NoDup(s)
    ensures NoDup(Without(s, x))
    ensures forall y :: y in Without(s, x) <==> y in s && y != x
  {
    if x in s {
      var i := IndexOf(s, x);
      var r := RemoveAt(s, i);
      forall y | y in s && y != x ensures y in r {
        var j :| 0 <= j < |s| && s[j] == y;
        assert if j < i then r[j] == y else r[j - 1] == y;
      }
    }
  }

  /** A duplicate-free sequence is no longer than the set it draws from. */
  lemma {:induction false} NoDupBound<T>(s: seq<T>, universe: set<T>)
    requires NoDup(s)
    requires forall i :: 0 <= i < |s| ==> s[i] in universe
    ensures |s| <= |universe|
  {
    if s == [] {
    } else {
      NoDupBound(s[1..], universe - {s[0]});
    }
  }

  // ----- lists that are kept in the order of deadlines

  /** Insertion point for deadline `e`: ahead of the first entry that is later. */
  function FirstLater<T(==)>(due: map<T, nat>, list: seq<T>, e: nat): (i: nat)
    requires forall k :: 0 <= k < |list| ==> list[k] in due
    ensures i <= |list|
    ensures forall k :: 0 <= k < i ==> due[list[k]] <= e
    ensures i < |list| ==> due[list[i]] > e
  {
    if list == [] || due[list[0]] > e then 0 else 1 + FirstLater(due, list[1..], e)
  }

  lemma {:induction false} FirstLaterIs<T>(due: map<T, nat>, list: seq<T>, e: nat, i: nat)
    requires forall k :: 0 <= k < |list| ==> list[k] in due
    requires i <= |list| && (forall k :: 0 <= k < i ==> due[list[k]] <= e) && (i < |list| ==> due[list[i]] > e)
    ensures FirstLater(due, list, e) == i
  {
    if i > 0 { FirstLaterIs(due, list[1..], e, i - 1); }
  }
}
