/** The lists of contended priority-inheritance futexes that each task owns. */
module OwnedFutexes {
  import opened Types
  import opened Sequences

  /** `lists` is each task's `owned_futexes`; `link` says which of them a futex's `owned` node is on, if any. */
  datatype Owned = Owned(lists: map<TaskId, seq<FutexId>>, link: map<FutexId, TaskId>)
  {
    function List(t: TaskId): seq<FutexId> {
      if t in lists then lists[t] else []
    }
  }

  ghost predicate ListLinked(link: map<FutexId, TaskId>, t: TaskId, list: seq<FutexId>) {
    NoDup(list) && forall i :: 0 <= i < |list| ==> list[i] in link && link[list[i]] == t
  }

  ghost predicate Good(o: Owned) {
    && (forall t :: ListLinked(o.link, t, o.List(t)))
    && (forall f :: f in o.link ==> f in o.List(o.link[f]))
  }

  lemma AddListLinked(link: map<FutexId, TaskId>, t: TaskId, list: seq<FutexId>, f: FutexId)
    requires ListLinked(link, t, list) && f !in link
    ensures ListLinked(link[f := t], t, list + [f])
  {
    assert forall i :: 0 <= i < |list| ==> list[i] != f;
  }

  lemma UnlinkListLinked(link: map<FutexId, TaskId>, t: TaskId, list: seq<FutexId>, f: FutexId)
    requires ListLinked(link, t, list)
    ensures ListLinked(link - {f}, t, Without(list, f))
    ensures forall g :: g in Without(list, f) <==> g in list && g != f
  {
    WithoutMembers(list, f);
    var r := Without(list, f);
    forall i | 0 <= i < |r| ensures r[i] in link - {f} && link[r[i]] == t {
      assert r[i] in r;
    }
  }

  function Add(o: Owned, t: TaskId, f: FutexId): Owned {
    Owned(o.lists[t := o.List(t) + [f]], o.link[f := t])
  }

  function Unlink(o: Owned, f: FutexId): Owned {
    if f !in o.link then o
    else o.(lists := o.lists[o.link[f] := Without(o.List(o.link[f]), f)], link := o.link - {f})
  }

  lemma AddGood(o: Owned, t: TaskId, f: FutexId)
    requires Good(o) && f !in o.link
    ensures Good(Add(o, t, f))
    ensures forall u, g :: g in Add(o, t, f).List(u) <==> (u == t && g == f) || g in o.List(u)
  {
    var r := Add(o, t, f);
    forall u
      ensures ListLinked(r.link, u, r.List(u))
      ensures forall g :: g in r.List(u) <==> (u == t && g == f) || g in o.List(u)
    {
      assert ListLinked(o.link, u, o.List(u));
      if u == t {
        AddListLinked(o.link, t, o.List(t), f);
      }
    }
  }

  lemma UnlinkGood(o: Owned, f: FutexId)
    requires Good(o)
    ensures Good(Unlink(o, f)) && f !in Unlink(o, f).link
    ensures forall g :: g != f ==> (g in Unlink(o, f).link <==> g in o.link)
    ensures forall u, g :: g in Unlink(o, f).List(u) <==> g in o.List(u) && g != f
  {
    var r := Unlink(o, f);
    forall u
      ensures ListLinked(r.link, u, r.List(u))
      ensures forall g :: g in r.List(u) <==> g in o.List(u) && g != f
    {
      assert ListLinked(o.link, u, o.List(u));
      if f in o.link && u == o.link[f] {
        UnlinkListLinked(o.link, u, o.List(u), f);
      }
    }
  }
}
