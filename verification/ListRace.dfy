/**
 Two cores that remove two nodes of one list at the same time, assignment by assignment: the tick hook pops the first
 timer without the lock that `osTimerStop` holds.
 */
module ListRace {
  import opened Sequences
  import opened Rings

  /** The four assignments of `list_remove` on node `n`, in order. */
  function Write<N(==)>(l: Links<N>, n: N, k: nat): Links<N>
    requires n in l.next && n in l.prev
  {
    if k == 0 then l.(prev := l.prev[l.next[n] := l.prev[n]])
    else if k == 1 then l.(next := l.next[l.prev[n] := l.next[n]])
    else if k == 2 then l.(next := l.next[n := n])
    else l.(prev := l.prev[n := n])
  }

  /** One core alone. */
  lemma Alone<N>(l: Links<N>, n: N)
    requires n in l.next && n in l.prev && l.next[n] in l.prev && l.prev[n] in l.next && l.next[n] != n && l.prev[n] != n
    ensures Write(Write(Write(Write(l, n, 0), n, 1), n, 2), n, 3) == Unlink(l, n)
  {}

  /** `i` assignments of the removal of `a` are done, and `j` of the removal of `b`; `run` says who is next. */
  function Race<N(==)>(l: Links<N>, a: N, b: N, i: nat, j: nat, run: seq<bool>): Links<N>
    requires a in l.next && a in l.prev && b in l.next && b in l.prev
    decreases |run|
  {
    if run == [] then l
    else if run[0] then Race(Write(l, a, i), a, b, i + 1, j, run[1..])
    else Race(Write(l, b, j), a, b, i, j + 1, run[1..])
  }

  /** Both removals go on to their end. */
  predicate Ends(i: nat, j: nat, run: seq<bool>)
    decreases |run|
  {
    if run == [] then i == 4 && j == 4
    else if run[0] then i < 4 && Ends(i + 1, j, run[1..])
    else j < 4 && Ends(i, j + 1, run[1..])
  }

  /** Two nodes that are not next to each other; each has its neighbours. */
  predicate Distant<N(==)>(l: Links<N>, a: N, b: N) {
    && a in l.next && a in l.prev && b in l.next && b in l.prev && a != b
    && l.next[a] != l.next[b] && l.prev[a] != l.prev[b]
    && l.next[a] != a && l.prev[a] != a && l.next[b] != b && l.prev[b] != b
    && l.next[a] != b && l.next[b] != a && l.prev[a] != b && l.prev[b] != a
  }

  /** What is in memory then: neither core has changed what the other one reads or writes. */
  function Mixed<N(==)>(l: Links<N>, a: N, b: N, i: nat, j: nat): Links<N>
    requires a in l.next && a in l.prev && b in l.next && b in l.prev
  {
    var n1 := if i >= 2 then l.next[l.prev[a] := l.next[a]] else l.next;
    var n2 := if i >= 3 then n1[a := a] else n1;
    var n3 := if j >= 2 then n2[l.prev[b] := l.next[b]] else n2;
    var n4 := if j >= 3 then n3[b := b] else n3;
    var p1 := if i >= 1 then l.prev[l.next[a] := l.prev[a]] else l.prev;
    var p2 := if i >= 4 then p1[a := a] else p1;
    var p3 := if j >= 1 then p2[l.next[b] := l.prev[b]] else p2;
    var p4 := if j >= 4 then p3[b := b] else p3;
    Links(n4, p4)
  }

  lemma MixedStep<N>(l: Links<N>, a: N, b: N, i: nat, j: nat)
    requires Distant(l, a, b) && i <= 4 && j <= 4
    ensures var m := Mixed(l, a, b, i, j);
            && a in m.next && a in m.prev && b in m.next && b in m.prev
            && (i < 4 ==> Write(m, a, i) == Mixed(l, a, b, i + 1, j))
            && (j < 4 ==> Write(m, b, j) == Mixed(l, a, b, i, j + 1))
  {}

  lemma {:induction false} RaceIs<N>(l: Links<N>, a: N, b: N, i: nat, j: nat, run: seq<bool>)
    requires Distant(l, a, b) && i <= 4 && j <= 4 && Ends(i, j, run)
    ensures var m := Mixed(l, a, b, i, j);
            a in m.next && a in m.prev && b in m.next && b in m.prev && Race(m, a, b, i, j, run) == Mixed(l, a, b, 4, 4)
    decreases |run|
  {
    hide Mixed, Write, Distant;
    MixedStep(l, a, b, i, j);
    if run != [] {
      if run[0] { RaceIs(l, a, b, i + 1, j, run[1..]); } else { RaceIs(l, a, b, i, j + 1, run[1..]); }
    }
  }

  /** In a ring of at least three nodes, different nodes have different neighbours. */
  lemma Neighbours<N>(l: Links<N>, s: seq<N>, x: nat)
    requires Ring(l, s) && 1 <= x < |s|
    ensures s[x] in l.next && s[x] in l.prev && l.prev[s[x]] == s[x - 1] && l.next[s[x]] == Behind(s, x)
    ensures l.next[s[x]] != s[x] && l.prev[s[x]] != s[x] && l.next[s[x]] in l.prev && l.prev[s[x]] in l.next
  {
    RingKnows(l, s, x);
    RingKnows(l, s, x - 1);
    RingKnows(l, s, if x + 1 < |s| then x + 1 else 0);
  }

  lemma ApartInRing<N>(l: Links<N>, s: seq<N>, x: nat, y: nat)
    requires Ring(l, s) && 1 <= x < y < |s|
    ensures s[x] in l.next && s[x] in l.prev && s[y] in l.next && s[y] in l.prev
    ensures l.next[s[x]] == s[y] <==> y == x + 1
    ensures y != x + 1 ==> Distant(l, s[x], s[y]) && Distant(l, s[y], s[x])
  {
    Neighbours(l, s, x);
    Neighbours(l, s, y);
  }

  lemma RingOnce<N>(l: Links<N>, s: seq<N>, x: nat)
    requires Ring(l, s) && 1 <= x < |s| - 1
    ensures s[x - 1] != s[x] && s[x] != s[x + 1] && s[x + 1] != s[x - 1]
  {}

  /** The node behind keeps its place: the first removal has read it before the second one changes it. */
  lemma Overtaken<N>(l: Links<N>, s: seq<N>, x: nat)
    requires Ring(l, s) && 1 <= x < |s| - 1
    ensures s[x] in l.next && s[x] in l.prev && s[x + 1] in l.next && s[x + 1] in l.prev
    ensures var run := [true, false, false, true, true, true, false, false];
            var r := Race(l, s[x], s[x + 1], 0, 0, run);
            && Ends(0, 0, run) && s[x - 1] in r.next && r.next[s[x - 1]] == s[x + 1]
            && s[x + 1] in r.next && r.next[s[x + 1]] == s[x + 1]
  {
    var a, b, p := s[x], s[x + 1], s[x - 1];
    Neighbours(l, s, x);
    Neighbours(l, s, x + 1);
    var q := l.next[b];
    var l1 := Write(l, a, 0);
    var l2 := Write(l1, b, 0);
    var l3 := Write(l2, b, 1);
    assert l3.prev[a] == p && l3.next[a] == b;
    var l4 := Write(l3, a, 1);
    var l6 := Write(Write(l4, a, 2), a, 3);
    var l8 := Write(Write(l6, b, 2), b, 3);
    Unrolled(l, a, b);
  }

  lemma Unrolled<N>(l: Links<N>, a: N, b: N)
    requires a in l.next && a in l.prev && b in l.next && b in l.prev
    ensures var run := [true, false, false, true, true, true, false, false];
            && Ends(0, 0, run)
            && Race(l, a, b, 0, 0, run) ==
               Write(Write(Write(Write(Write(Write(Write(Write(l, a, 0), b, 0), b, 1), a, 1), a, 2), a, 3), b, 2), b, 3)
  {
    hide Write;
    var run := [true, false, false, true, true, true, false, false];
    assert run[1..] == [false, false, true, true, true, false, false];
    assert run[1..][1..] == [false, true, true, true, false, false];
    assert run[1..][1..][1..] == [true, true, true, false, false];
    assert run[1..][1..][1..][1..] == [true, true, false, false];
    assert run[1..][1..][1..][1..][1..] == [true, false, false];
    assert run[1..][1..][1..][1..][1..][1..] == [false, false];
    assert run[1..][1..][1..][1..][1..][1..][1..] == [false];
  }

  lemma MixedEnds<N>(l: Links<N>, a: N, b: N)
    requires Distant(l, a, b)
    ensures Mixed(l, a, b, 0, 0) == l
    ensures a in l.next && b in Unlink(l, a).next && b in Unlink(l, a).prev && Mixed(l, a, b, 4, 4) == Unlink(Unlink(l, a), b)
  {}

  /**
   Whatever the interleaving, both nodes leave the list and nothing else changes, exactly if neither node is the other
   one's neighbour.
   */
  lemma RemovalsCommuteExactly<N(!new)>(l: Links<N>, s: seq<N>, x: nat, y: nat)
    requires Ring(l, s) && 1 <= x < y < |s|
    ensures s[x] in l.next && s[x] in l.prev && s[y] in l.next && s[y] in l.prev
    ensures s[y] in Unlink(l, s[x]).next && s[y] in Unlink(l, s[x]).prev
    ensures (forall run :: Ends(0, 0, run) ==> Race(l, s[x], s[y], 0, 0, run) == Unlink(Unlink(l, s[x]), s[y])) <==> y != x + 1
  {
    hide Ring, Race, Ends, Mixed, Distant;
    ApartInRing(l, s, x, y);
    if y == x + 1 {
      Overtaken(l, s, x);
      Neighbours(l, s, x);
      Neighbours(l, s, y);
      RingOnce(l, s, x);
      var run := [true, false, false, true, true, true, false, false];
      assert Race(l, s[x], s[y], 0, 0, run).next[s[x - 1]] != Unlink(Unlink(l, s[x]), s[y]).next[s[x - 1]];
    } else {
      MixedEnds(l, s[x], s[y]);
      forall run | Ends(0, 0, run) ensures Race(l, s[x], s[y], 0, 0, run) == Unlink(Unlink(l, s[x]), s[y]) {
        RaceIs(l, s[x], s[y], 0, 0, run);
      }
    }
  }

  /** The `k`th node after `n`. */
  function Walk<N(==)>(l: Links<N>, n: N, k: nat): N
    decreases k
  {
    if k == 0 || n !in l.next then n else Walk(l, l.next[n], k - 1)
  }

  lemma {:induction false} Stays<N>(l: Links<N>, n: N, k: nat)
    requires n in l.next && l.next[n] == n
    ensures Walk(l, n, k) == n
  {
    if k > 0 { Stays(l, n, k - 1); }
  }

  /**
   The first node is popped while the second one is removed: after one of the interleavings every walk over the list
   stays at the second node for ever.
   */
  lemma WalkIsLost<N>(l: Links<N>, s: seq<N>, k: nat) returns (run: seq<bool>)
    requires Ring(l, s) && |s| > 2 && k > 0
    ensures s[1] in l.next && s[1] in l.prev && s[2] in l.next && s[2] in l.prev && Ends(0, 0, run)
    ensures Walk(Race(l, s[1], s[2], 0, 0, run), s[0], k) == s[2] != s[0]
  {
    hide Ring, Race, Ends;
    run := [true, false, false, true, true, true, false, false];
    Overtaken(l, s, 1);
    RingOnce(l, s, 1);
    Stays(Race(l, s[1], s[2], 0, 0, run), s[2], k - 1);
  }
}
