/**
 The pointers of intrusive list nodes as memory: what each node's `next` and `prev` contain. Many lists share one
 memory; each of them is a ring through its head, and a node that is on no list is a ring of its own.
 */
module Rings {
  import opened Sequences

  /** A list head, named by what it belongs to, or the node inside an element. */
  datatype Node<H, E> = Head(owner: H) | Elem(elem: E)

  datatype Links<N> = Links(next: map<N, N>, prev: map<N, N>)

  /** `sched_list_insert_before`: four assignments. */
  function Insert<N>(l: Links<N>, entry: N, node: N): Links<N>
    requires entry in l.prev
  {
    var before := l.prev[entry];
    Links(l.next[node := entry][before := node], l.prev[node := before][entry := node])
  }

  /** `sched_list_remove`: four assignments, harmless on a node that is on no list. */
  function Unlink<N>(l: Links<N>, node: N): Links<N>
    requires node in l.next && node in l.prev
  {
    var before, after := l.prev[node], l.next[node];
    Links(l.next[before := after][node := node], l.prev[after := before][node := node])
  }

  /** `sched_list_init` */
  function Init<N>(l: Links<N>, node: N): Links<N> {
    Links(l.next[node := node], l.prev[node := node])
  }

  /** The node behind the `i`th one, round the end. */
  function Behind<N>(s: seq<N>, i: nat): N
    requires i < |s|
  {
    if i + 1 < |s| then s[i + 1] else s[0]
  }

  predicate Joined<N>(l: Links<N>, a: N, b: N) {
    a in l.next && b in l.prev && l.next[a] == b && l.prev[b] == a
  }

  ghost predicate Ring<N>(l: Links<N>, s: seq<N>) {
    s != [] && NoDup(s) && forall i :: 0 <= i < |s| ==> Joined(l, s[i], Behind(s, i))
  }

  ghost predicate Apart<N>(r: seq<N>, s: seq<N>) {
    forall i, j :: 0 <= i < |r| && 0 <= j < |s| ==> r[i] != s[j]
  }

  lemma RingKnows<N>(l: Links<N>, s: seq<N>, i: nat)
    requires Ring(l, s) && i < |s|
    ensures s[i] in l.next && s[i] in l.prev && l.next[s[i]] == Behind(s, i)
    ensures l.prev[s[i]] == if i == 0 then s[|s| - 1] else s[i - 1]
  {
    assert Joined(l, s[i], Behind(s, i));
    if i == 0 {
      assert Joined(l, s[|s| - 1], Behind(s, |s| - 1));
    } else {
      assert Joined(l, s[i - 1], Behind(s, i - 1));
    }
  }

  /** The node that an insertion at place `k` goes before. */
  function At<N>(s: seq<N>, k: nat): N
    requires s != [] && k <= |s|
  {
    if k == |s| then s[0] else s[k]
  }

  lemma InsertRing<N>(l: Links<N>, s: seq<N>, k: nat, node: N)
    requires Ring(l, s) && 1 <= k <= |s| && node !in s
    ensures At(s, k) in l.prev && Ring(Insert(l, At(s, k), node), InsertAt(s, k, node))
  {
    RingKnows(l, s, if k == |s| then 0 else k);
    var r := InsertAt(s, k, node);
    InsertNoDup(s, k, node);
    forall i | 0 <= i < |r| ensures Joined(Insert(l, At(s, k), node), r[i], Behind(r, i)) {
      InsertJoined(l, s, k, node, i);
    }
  }

  lemma InsertNoDup<N>(s: seq<N>, k: nat, node: N)
    requires NoDup(s) && k <= |s| && node !in s
    ensures NoDup(InsertAt(s, k, node))
  {
    var r := InsertAt(s, k, node);
    assert forall j :: 0 <= j < |r| ==> r[j] == if j < k then s[j] else if j == k then node else s[j - 1];
  }

  lemma InsertJoined<N>(l: Links<N>, s: seq<N>, k: nat, node: N, i: nat)
    requires Ring(l, s) && 1 <= k <= |s| && node !in s && i <= |s|
    ensures At(s, k) in l.prev
    ensures var r := InsertAt(s, k, node); Joined(Insert(l, At(s, k), node), r[i], Behind(r, i))
  {
    RingKnows(l, s, if k == |s| then 0 else k);
    var r := InsertAt(s, k, node);
    assert r[i] == if i < k then s[i] else if i == k then node else s[i - 1];
    if i + 1 < |r| { assert r[i + 1] == if i + 1 < k then s[i + 1] else if i + 1 == k then node else s[i]; }
    if i < k - 1 {
      assert Joined(l, s[i], Behind(s, i));
    } else if i > k {
      assert Joined(l, s[i - 1], Behind(s, i - 1));
    }
  }

  lemma InsertOther<N>(l: Links<N>, s: seq<N>, k: nat, node: N, r: seq<N>)
    requires Ring(l, s) && 1 <= k <= |s| && Ring(l, r) && Apart(r, s) && node !in r
    ensures At(s, k) in l.prev && Ring(Insert(l, At(s, k), node), r)
  {
    RingKnows(l, s, if k == |s| then 0 else k);
    var l' := Insert(l, At(s, k), node);
    forall i | 0 <= i < |r| ensures Joined(l', r[i], Behind(r, i)) {
      assert Joined(l, r[i], Behind(r, i));
    }
  }

  lemma UnlinkRing<N>(l: Links<N>, s: seq<N>, k: nat)
    requires Ring(l, s) && 1 <= k < |s|
    ensures s[k] in l.next && s[k] in l.prev
    ensures Ring(Unlink(l, s[k]), RemoveAt(s, k)) && Ring(Unlink(l, s[k]), [s[k]])
  {
    RingKnows(l, s, k);
    var l' := Unlink(l, s[k]);
    var r := RemoveAt(s, k);
    assert forall j :: 0 <= j < |r| ==> r[j] == s[if j < k then j else j + 1];
    forall i | 0 <= i < |r| ensures Joined(l', r[i], Behind(r, i)) {
      if i < k - 1 {
        assert Joined(l, s[i], Behind(s, i));
      } else if i >= k {
        assert Joined(l, s[i + 1], Behind(s, i + 1));
      }
    }
  }

  lemma UnlinkOther<N>(l: Links<N>, s: seq<N>, k: nat, r: seq<N>)
    requires Ring(l, s) && k < |s| && Ring(l, r) && Apart(r, s)
    ensures s[k] in l.next && s[k] in l.prev && Ring(Unlink(l, s[k]), r)
  {
    RingKnows(l, s, k);
    var l' := Unlink(l, s[k]);
    forall i | 0 <= i < |r| ensures Joined(l', r[i], Behind(r, i)) {
      assert Joined(l, r[i], Behind(r, i));
    }
  }

  /** A node on no list may be unlinked. */
  lemma UnlinkAlone<N>(l: Links<N>, n: N)
    requires Ring(l, [n])
    ensures n in l.next && n in l.prev && Unlink(l, n) == l
  {
    RingKnows(l, [n], 0);
  }

  lemma InitRing<N>(l: Links<N>, n: N)
    ensures Ring(Init(l, n), [n])
    ensures forall r: seq<N> :: Ring(l, r) && n !in r ==> Ring(Init(l, n), r)
  {
    forall r: seq<N> | Ring(l, r) && n !in r ensures Ring(Init(l, n), r) {
      forall i | 0 <= i < |r| ensures Joined(Init(l, n), r[i], Behind(r, i)) {
        assert Joined(l, r[i], Behind(r, i));
      }
    }
  }

  // ----- lists of elements behind a head

  function Nodes<H, E>(list: seq<E>): (r: seq<Node<H, E>>)
    ensures |r| == |list| && forall i :: 0 <= i < |list| ==> r[i] == Elem(list[i])
  {
    seq(|list|, (i: nat) requires i < |list| => Elem(list[i]))
  }

  function Chain<H, E>(h: H, list: seq<E>): (r: seq<Node<H, E>>)
    ensures |r| == |list| + 1 && r[0] == Head(h) && forall i :: 0 <= i < |list| ==> r[i + 1] == Elem(list[i])
  {
    [Head(h)] + Nodes(list)
  }

  lemma InsertLength<T>(s: seq<T>, i: nat, x: T)
    requires i <= |s|
    ensures |InsertAt(s, i, x)| == |s| + 1
  {}

  lemma InsertIndex<T>(s: seq<T>, i: nat, x: T, j: nat)
    requires i <= |s| && j <= |s|
    ensures InsertAt(s, i, x)[j] == if j < i then s[j] else if j == i then x else s[j - 1]
  {}

  lemma ChainInsert<H, E>(h: H, list: seq<E>, i: nat, x: E)
    requires i <= |list|
    ensures Chain(h, InsertAt(list, i, x)) == InsertAt(Chain(h, list), i + 1, Elem(x))
  {
    hide Chain, InsertAt;
    InsertLength(list, i, x);
    InsertLength(Chain(h, list), i + 1, Elem(x));
    var a, b := Chain(h, InsertAt(list, i, x)), InsertAt(Chain(h, list), i + 1, Elem(x));
    forall j | 0 <= j < |a| ensures a[j] == b[j] {
      InsertIndex(Chain(h, list), i + 1, Elem(x), j);
      if j > 0 { InsertIndex(list, i, x, j - 1); }
    }
  }

  lemma ChainRemove<H, E>(h: H, list: seq<E>, i: nat)
    requires i < |list|
    ensures Chain(h, RemoveAt(list, i)) == RemoveAt(Chain(h, list), i + 1)
  {
    var a, b := Chain(h, RemoveAt(list, i)), RemoveAt(Chain(h, list), i + 1);
    forall j | 0 <= j < |a| ensures a[j] == b[j] {
      if j > 0 { assert a[j] == Elem(RemoveAt(list, i)[j - 1]); }
    }
  }

  /** Chains of different heads without a common element share no node. */
  lemma ChainsApart<H, E>(g: H, a: seq<E>, h: H, b: seq<E>)
    requires g != h && forall x :: x in a ==> x !in b
    ensures Apart(Chain(g, a), Chain(h, b))
  {
    forall i, j | 0 <= i < |a| + 1 && 0 <= j < |b| + 1 ensures Chain(g, a)[i] != Chain(h, b)[j] {
      if i > 0 && j > 0 { assert a[i - 1] in a && b[j - 1] in b; }
    }
  }

  lemma AloneApart<H, E>(x: E, h: H, b: seq<E>)
    requires x !in b
    ensures Apart([Elem(x)], Chain(h, b)) && Elem(x) !in Chain(h, b)
  {
    forall j | 0 <= j < |b| + 1 ensures Chain(h, b)[j] != Elem(x) {
      if j > 0 { assert b[j - 1] in b; }
    }
  }
}
