/**
 The circular doubly linked lists that everything is queued on: tasks, timers and messages. A list is a head
 node; a node that is on no list is a ring of its own. The ghost sequence of a list starts with its head.
 */
module IntrusiveLists {
  import opened Sequences
  import R = Rings

  class Node {
    var next: Node
    var prev: Node
    var key: int

    /** `list_init` */
    constructor (key: int)
      ensures next == this && prev == this && this.key == key
    {
      next, prev := this, this;
      this.key := key;
    }
  }

  /** Following `next` from the head visits exactly `s`, in order, and `prev` goes back the same way. */
  ghost predicate Ring(s: seq<Node>)
    reads s
  {
    && s != [] && NoDup(s)
    && (forall i :: 0 <= i < |s| - 1 ==> s[i].next == s[i + 1] && s[i + 1].prev == s[i])
    && s[|s| - 1].next == s[0] && s[0].prev == s[|s| - 1]
  }

  /** The nodes `all` contain the pointers `l`. */
  ghost predicate Contain(all: set<Node>, l: R.Links<Node>)
    reads all
  {
    forall n :: n in all ==> n in l.next && n in l.prev && l.next[n] == n.next && l.prev[n] == n.prev
  }

  ghost function Pair(a: Node, b: Node): (l: R.Links<Node>)
    reads a, b
    ensures Contain({a, b}, l)
  {
    R.Links(map n: Node | n in {a, b} :: n.next, map n: Node | n in {a, b} :: n.prev)
  }

  /** The four assignments of an insertion do to the pointers of any nodes what `Rings.Insert` says. */
  method Link(entry: Node, node: Node, ghost all: set<Node>, ghost l: R.Links<Node>)
    requires entry in all && node in all && node != entry && node != entry.prev && Contain(all, l)
    modifies entry`prev, entry.prev`next, node`next, node`prev
    ensures entry in l.prev && Contain(all, R.Insert(l, entry, node))
    ensures node.next == entry && node.prev == old(entry.prev) && node.prev.next == node && entry.prev == node
  {
    node.next := entry;
    node.prev := entry.prev;
    entry.prev.next := node;
    entry.prev := node;
  }

  /** The four assignments of a removal do what `Rings.Unlink` says, also to a node that is on no list. */
  method Cut(node: Node, ghost all: set<Node>, ghost l: R.Links<Node>)
    requires node in all && (node.next == node <==> node.prev == node) && Contain(all, l)
    modifies node`next, node`prev, node.prev`next, node.next`prev
    ensures node in l.next && node in l.prev && Contain(all, R.Unlink(l, node))
    ensures node.next == node && node.prev == node
    ensures old(node.next).prev == old(node.prev) && old(node.prev).next == old(node.next)
  {
    node.next.prev := node.prev;
    node.prev.next := node.next;
    node.next := node;
    node.prev := node;
  }

  /** `list_insert_before`: ahead of the `k`th node, or, with the head for `entry`, at the end. */
  method InsertBefore(entry: Node, node: Node, ghost s: seq<Node>, ghost k: nat)
    requires Ring(s) && 1 <= k <= |s| && node !in s
    requires entry == if k == |s| then s[0] else s[k]
    modifies entry`prev, entry.prev`next, node`next, node`prev
    ensures Ring(InsertAt(s, k, node))
  {
    ghost var r := InsertAt(s, k, node);
    assert entry.prev == s[k - 1];
    Link(entry, node, {entry, node}, Pair(entry, node));
    assert forall j :: 0 <= j < |r| ==> r[j] == if j < k then s[j] else if j == k then node else s[j - 1];
  }

  lemma OnePredecessor(r: seq<Node>, a: Node, b: Node)
    requires Ring(r) && a in r && b in r && a.next == b.next
    ensures a == b
  {
    var i :| 0 <= i < |r| && r[i] == a;
    var j :| 0 <= j < |r| && r[j] == b;
    assert a.next == (if i + 1 < |r| then r[i + 1] else r[0]) && b.next == (if j + 1 < |r| then r[j + 1] else r[0]);
  }

  /** The same on a node that is linked already: afterwards no ring contains all the nodes, whatever its order. */
  method InsertAgain(entry: Node, node: Node, ghost s: seq<Node>, ghost j: nat, ghost k: nat)
    requires Ring(s) && 1 <= j < |s| && node == s[j] && 1 <= k <= |s| && k != j
    requires entry == if k == |s| then s[0] else s[k]
    modifies entry`prev, entry.prev`next, node`next, node`prev
    ensures forall r: seq<Node> :: Ring(r) ==> exists n :: n in s && n !in r
  {
    assert entry.prev == s[k - 1] && s[j - 1].next == node;
    node.next := entry;
    node.prev := entry.prev;
    entry.prev.next := node;
    entry.prev := node;
    assert s[k - 1].next == node && s[j - 1].next == node && s[j - 1] != s[k - 1];
    forall r: seq<Node> | Ring(r) ensures exists n :: n in s && n !in r {
      assert s[j - 1] in s && s[k - 1] in s;
      if s[j - 1] in r && s[k - 1] in r { OnePredecessor(r, s[j - 1], s[k - 1]); }
    }
  }

  /** `list_remove`: any node but the head; afterwards it is a ring of its own. */
  method Remove(node: Node, ghost s: seq<Node>, ghost k: nat)
    requires Ring(s) && 1 <= k < |s| && s[k] == node
    modifies node`next, node`prev, node.prev`next, node.next`prev
    ensures Ring(RemoveAt(s, k)) && node.next == node && node.prev == node
  {
    ghost var r := RemoveAt(s, k);
    ghost var after := if k + 1 < |s| then s[k + 1] else s[0];
    assert node.prev == s[k - 1] && node.next == after;
    Cut(node, {node}, Pair(node, node));
    assert forall j :: 0 <= j < |r| ==> r[j] == s[if j < k then j else j + 1];
  }

  /** `list_push`: the node becomes the first one. */
  method Push(list: Node, node: Node, ghost s: seq<Node>)
    requires Ring(s) && s[0] == list && node !in s
    modifies list`next, list.next`prev, node`next, node`prev
    ensures Ring(InsertAt(s, 1, node))
  {
    ghost var r := InsertAt(s, 1, node);
    assert list.next == if |s| > 1 then s[1] else s[0];
    node.next := list.next;
    node.prev := list;
    list.next.prev := node;
    list.next := node;
    assert forall j :: 0 <= j < |r| ==> r[j] == if j < 1 then s[j] else if j == 1 then node else s[j - 1];
  }

  /** `list_is_empty` */
  method IsEmpty(list: Node, ghost s: seq<Node>) returns (empty: bool)
    requires Ring(s) && s[0] == list
    ensures empty <==> |s| == 1
  {
    empty := list.next == list && list.prev == list;
    assert |s| > 1 ==> list.next == s[1] && s[1] != s[0];
  }

  /** `list_pop`: the first node, or none. */
  method Pop(list: Node, ghost s: seq<Node>) returns (front: Node?)
    requires Ring(s) && s[0] == list
    modifies s
    ensures |s| == 1 ==> front == null && Ring(s)
    ensures |s| > 1 ==> front == s[1] && Ring(RemoveAt(s, 1)) && s[1].next == s[1] && s[1].prev == s[1]
    ensures forall n :: n in s ==> n.key == old(n.key)
  {
    front := null;
    var empty := IsEmpty(list, s);
    if !empty {
      front := list.next;
      assert front == s[1] && front.prev == s[0] && front.next == if |s| > 2 then s[2] else s[0];
      Remove(front, s, 1);
    }
  }

  // ----- ordered insertion

  /** Position of the first key that is greater than `key`, or the end. */
  function Gap(keys: seq<int>, key: int): (i: nat)
    ensures i <= |keys|
    ensures forall j :: 0 <= j < i ==> keys[j] <= key
    ensures i < |keys| ==> keys[i] > key
  {
    if keys == [] || keys[0] > key then 0 else 1 + Gap(keys[1..], key)
  }

  lemma {:induction false} GapAt(keys: seq<int>, key: int, i: nat)
    requires i <= |keys| && (forall j :: 0 <= j < i ==> keys[j] <= key) && (i < |keys| ==> keys[i] > key)
    ensures Gap(keys, key) == i
  {
    if i > 0 { GapAt(keys[1..], key, i - 1); }
  }

  ghost function Keys(s: seq<Node>): (r: seq<int>)
    reads s
    ensures |r| == |s| && forall i :: 0 <= i < |s| ==> r[i] == s[i].key
  {
    if s == [] then [] else [s[0].key] + Keys(s[1..])
  }

  /**
   The loop of the scheduler's queues and timers, and, with the negated priority for a key, of the message
   queue: walk to the first node with a greater key and insert before it.
   */
  method InsertOrdered(list: Node, node: Node, ghost s: seq<Node>)
    requires Ring(s) && s[0] == list && node !in s
    modifies s, node`next, node`prev
    ensures Ring(InsertAt(s, 1 + Gap(old(Keys(s[1..])), node.key), node))
    ensures forall n :: n in s ==> n.key == old(n.key)
  {
    var cursor := list.next;
    ghost var k := 1;
    while cursor != list && cursor.key <= node.key
      invariant 1 <= k <= |s|
      invariant cursor == if k == |s| then s[0] else s[k]
      invariant forall j :: 1 <= j < k ==> s[j].key <= node.key
      decreases |s| - k
    {
      cursor := cursor.next;
      k := k + 1;
    }
    GapAt(Keys(s[1..]), node.key, k - 1);
    assert cursor.prev == s[k - 1];
    InsertBefore(cursor, node, s, k);
  }
}
