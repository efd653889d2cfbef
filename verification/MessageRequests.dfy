/**
 The message queue as its callers see it: what each call has asked for, what it has done to the queue, and what it
 answers. The calls form one sequence of insertions and removals, in which every removal takes the message that was sent
 first among those of the highest priority.
 */
module MessageRequests {
  import opened Types
  import opened Sequences
  import opened MessageQueue

  // ----- a priority queue

  /** A message as its sender and its receiver know it. */
  datatype Parcel = Parcel(prio: nat, datum: Datum)

  /** The `i`th parcel of a list in the order of sending is to be received next. */
  predicate IsNext(q: seq<Parcel>, i: nat) {
    && i < |q|
    && (forall j :: 0 <= j < i ==> q[j].prio < q[i].prio)
    && (forall j :: 0 <= j < |q| ==> q[j].prio <= q[i].prio)
  }

  ghost predicate ComesNext(q: seq<Parcel>, p: Parcel) {
    exists i: nat :: IsNext(q, i) && q[i] == p
  }

  function Next(q: seq<Parcel>): (i: nat)
    requires q != []
    ensures i < |q| && IsNext(q, i)
  {
    var n := |q| - 1;
    if n == 0 then 0
    else
      var i := Next(q[..n]);
      assert forall j :: 0 <= j < n ==> q[..n][j] == q[j];
      if q[n].prio > q[i].prio then n else i
  }

  /** What a call does to the queue: it sends, or it receives. */
  datatype Record = Sent(thread: nat, parcel: Parcel) | Got(thread: nat, parcel: Parcel)

  function After(q: seq<Parcel>, r: Record): seq<Parcel> {
    if r.Sent? then q + [r.parcel] else if q == [] then [] else RemoveAt(q, Next(q))
  }

  /** The parcels that have been sent and not yet received, in the order of sending. */
  function Pending(log: seq<Record>): seq<Parcel> {
    if log == [] then [] else After(Pending(log[..|log| - 1]), log[|log| - 1])
  }

  /** Every removal has taken the parcel that was next. */
  ghost predicate Legal(log: seq<Record>) {
    forall k :: 0 <= k < |log| && log[k].Got? ==>
      var q := Pending(log[..k]); q != [] && log[k].parcel == q[Next(q)]
  }

  lemma LogMore(log: seq<Record>, r: Record)
    ensures Pending(log + [r]) == After(Pending(log), r)
    ensures Legal(log) && (r.Got? ==> Pending(log) != [] && r.parcel == Pending(log)[Next(Pending(log))]) ==> Legal(log + [r])
  {
    var more := log + [r];
    assert more[..|log|] == log;
    if Legal(log) && (r.Got? ==> Pending(log) != [] && r.parcel == Pending(log)[Next(Pending(log))]) {
      forall k | 0 <= k < |more| && more[k].Got?
        ensures var q := Pending(more[..k]); q != [] && more[k].parcel == q[Next(q)]
      {
        assert more[..k] == log[..k];
      }
    }
  }

  // ----- the list of messages is that queue, sorted

  function PlaceOf(q: seq<Parcel>, prio: nat): (i: nat)
    ensures i <= |q|
    ensures forall j :: 0 <= j < i ==> q[j].prio >= prio
    ensures i < |q| ==> prio > q[i].prio
  {
    if q == [] || prio > q[0].prio then 0 else 1 + PlaceOf(q[1..], prio)
  }

  /** The parcels, inserted one after the other. */
  function Arranged(q: seq<Parcel>): (r: seq<Parcel>)
    ensures |r| == |q|
  {
    if q == [] then []
    else
      var x := q[|q| - 1];
      var r := Arranged(q[..|q| - 1]);
      InsertAt(r, PlaceOf(r, x.prio), x)
  }

  lemma ArrangedMore(q: seq<Parcel>, x: Parcel)
    ensures Arranged(q + [x]) == InsertAt(Arranged(q), PlaceOf(Arranged(q), x.prio), x)
  {
    assert (q + [x])[..|q|] == q;
  }

  lemma NextMore(q: seq<Parcel>, x: Parcel)
    ensures Next(q + [x]) == if q != [] && x.prio <= q[Next(q)].prio then Next(q) else |q|
  {
    assert (q + [x])[..|q|] == q;
  }

  lemma InsertBehind(r: seq<Parcel>, k: nat, x: Parcel)
    requires 1 <= k <= |r|
    ensures InsertAt(r, k, x)[0] == r[0] && InsertAt(r, k, x)[1..] == InsertAt(r[1..], k - 1, x)
  {}

  lemma InsertAhead(r: seq<Parcel>, x: Parcel)
    ensures InsertAt(r, 0, x)[0] == x && InsertAt(r, 0, x)[1..] == r
  {}

  lemma RemoveMore(q: seq<Parcel>, i: nat, x: Parcel)
    requires i <= |q|
    ensures RemoveAt(q + [x], i) == if i < |q| then RemoveAt(q, i) + [x] else q
  {}

  /** The first of the arranged parcels is the one to be received next, and the others are those that remain. */
  lemma {:induction false} FirstIsNext(q: seq<Parcel>)
    requires q != []
    ensures Arranged(q)[0] == q[Next(q)] && Arranged(q)[1..] == Arranged(RemoveAt(q, Next(q)))
    decreases |q|
  {
    hide Arranged, InsertAt, RemoveAt, Next, IsNext;
    var n := |q| - 1;
    var x, rest := q[n], q[..n];
    var r := Arranged(rest);
    assert q == rest + [x];
    ArrangedMore(rest, x);
    NextMore(rest, x);
    RemoveMore(rest, Next(q), x);
    InsertAhead(r, x);
    if n > 0 {
      FirstIsNext(rest);
      if x.prio <= rest[Next(rest)].prio {
        InsertBehind(r, PlaceOf(r, x.prio), x);
        ArrangedMore(RemoveAt(rest, Next(rest)), x);
      }
    }
  }

  function Parcels(ms: seq<Message>): (q: seq<Parcel>)
    ensures |q| == |ms| && forall i :: 0 <= i < |q| ==> q[i] == Parcel(ms[i].prio, ms[i].datum)
  {
    seq(|ms|, (i: nat) requires i < |ms| => Parcel(ms[i].prio, ms[i].datum))
  }

  lemma {:induction false} SamePlace(ms: seq<Message>, prio: nat)
    ensures Place(ms, prio) == PlaceOf(Parcels(ms), prio)
  {
    if ms != [] {
      assert Parcels(ms)[1..] == Parcels(ms[1..]);
      SamePlace(ms[1..], prio);
    }
  }

  lemma ParcelsInsert(ms: seq<Message>, i: nat, m: Message)
    requires i <= |ms|
    ensures Parcels(InsertAt(ms, i, m)) == InsertAt(Parcels(ms), i, Parcel(m.prio, m.datum))
  {
    var a, b := InsertAt(ms, i, m), InsertAt(Parcels(ms), i, Parcel(m.prio, m.datum));
    assert forall j :: 0 <= j < |a| ==> Parcels(a)[j] == b[j];
  }

  // ----- calls

  /** A call under way: what it was asked, the blocks that its thread held then, and what it has done to the queue. */
  datatype Call = Call(request: Request, before: seq<Block>, records: seq<Record>)

  /** What can be said of a run from outside: the calls under way, and all that was done to the queue. */
  datatype History = History(calls: seq<Option<Call>>, log: seq<Record>)

  function Parcelled(r: Request): Parcel
    requires r.Put?
  {
    Parcel(r.prio, r.datum)
  }

  /** What a step of thread `i` does to the queue: it sends what its call was asked to, or receives a message. */
  function Recorded(s: State, h: History, i: nat): seq<Record>
    requires i < |s.threads| == |h.calls|
  {
    match s.threads[i].phase
    case Inserting(_, _, _) =>
      if h.calls[i].Some? && h.calls[i].value.request.Put? then [Sent(i, Parcelled(h.calls[i].value.request))] else []
    case Removing => if s.messages == [] then [] else [Got(i, Parcel(s.messages[0].prio, s.messages[0].datum))]
    case _ => []
  }

  function Note(s: State, h: History, e: Event): History
    requires Possible(s, e) && |s.threads| == |h.calls|
  {
    match e
    case Enter(i, r) => h.(calls := h.calls[i := Some(Call(r, s.threads[i].held, []))])
    case Move(i, patient) =>
      var records := Recorded(s, h, i);
      var goesOn := h.calls[i].Some? && !Step(s, i, patient).0.threads[i].phase.Idle?;
      History(h.calls[i := if goesOn then Some(h.calls[i].value.(records := h.calls[i].value.records + records)) else None],
              h.log + records)
  }

  ghost predicate LeadsNoting(s: State, h: History, run: seq<Event>, s': State, h': History)
    decreases |run|
  {
    if run == [] then s' == s && h' == h
    else
      && Possible(s, run[0]) && |s.threads| == |h.calls|
      && LeadsNoting(Happen(s, run[0]).0, Note(s, h, run[0]), run[1..], s', h')
  }

  ghost predicate Fresh(s: State, h: History) {
    Start(s) && h.log == [] && |h.calls| == |s.threads| && forall i :: 0 <= i < |h.calls| ==> h.calls[i] == None
  }

  // ----- how far a call has come

  predicate Asks(c: Call, r: Request, t: Thread) {
    c.request == r && t.held == c.before
  }

  function Wanted(want: Want): Request {
    match want case Keep => Alloc case Send(p, d) => Put(p, d)
  }

  predicate HasSent(i: nat, t: Thread, c: Call) {
    c.request.Put? && t.held == c.before && c.records == [Sent(i, Parcelled(c.request))]
  }

  /** The call of thread `i` is where its phase says. */
  predicate CallOk(i: nat, t: Thread, call: Option<Call>) {
    if t.phase.Idle? then call.None?
    else
      && call.Some?
      && var c := call.value;
         match t.phase
         case Taking(want) => Asks(c, Wanted(want), t) && c.records == []
         case Popping(want) => Asks(c, Wanted(want), t) && c.records == []
         case Writing(p, d, _) => Asks(c, Put(p, d), t) && c.records == []
         case Inserting(p, d, _) => Asks(c, Put(p, d), t) && c.records == []
         case Publishing => HasSent(i, t, c)
         case Adding => HasSent(i, t, c)
         case Fetching => Asks(c, Get, t) && c.records == []
         case Removing => Asks(c, Get, t) && c.records == []
         case Copying(m) => Asks(c, Get, t) && c.records == [Got(i, Parcel(m.prio, m.datum))]
         case Freeing(b) => GivesBack(i, t, c) && (c.request.Free? ==> b == c.before[c.request.index])
         case Returning => GivesBack(i, t, c)
         case Crediting => GivesBack(i, t, c)
  }

  /** A get that has its message, or a free. */
  predicate GivesBack(i: nat, t: Thread, c: Call) {
    || (Asks(c, Get, t) && |c.records| == 1 && c.records[0].Got? && c.records[0].thread == i)
    || (c.request.Free? && c.request.index < |c.before| && t.held == RemoveAt(c.before, c.request.index) && c.records == [])
  }

  ghost predicate Told(s: State, h: History) {
    && |h.calls| == |s.threads|
    && (forall i :: 0 <= i < |s.threads| ==> CallOk(i, s.threads[i], h.calls[i]))
    && Legal(h.log)
    && Parcels(s.messages) == Arranged(Pending(h.log))
  }

  lemma EnterTold(s: State, h: History, i: nat, r: Request)
    requires Told(s, h) && MayBegin(s, i, r)
    ensures Told(Begin(s, i, r), Note(s, h, Enter(i, r)))
  {
    hide Legal, Pending, Arranged, Parcels;
  }

  /** The steps that do nothing to the list of messages. */
  lemma QuietTold(s: State, h: History, i: nat, patient: bool)
    requires Told(s, h) && i < |s.threads| && Harmless(Step(s, i, patient).1)
    requires !s.threads[i].phase.Inserting? && !s.threads[i].phase.Removing?
    ensures Told(Step(s, i, patient).0, Note(s, h, Move(i, patient)))
  {
    hide Legal, Pending, Arranged, Parcels, Store;
    var s', h' := Step(s, i, patient).0, Note(s, h, Move(i, patient));
    assert CallOk(i, s.threads[i], h.calls[i]);
    assert h'.log == h.log;
    assert s'.messages == s.messages;
    forall j | 0 <= j < |s'.threads| ensures CallOk(j, s'.threads[j], h'.calls[j]) {
      if j != i { assert CallOk(j, s.threads[j], h.calls[j]); }
    }
  }

  lemma InsertTold(s: State, h: History, i: nat, patient: bool)
    requires Told(s, h) && i < |s.threads| && s.threads[i].phase.Inserting?
    ensures Told(Step(s, i, patient).0, Note(s, h, Move(i, patient)))
  {
    hide Legal, Pending, Arranged, Parcels, Place, InsertAt;
    var s', h' := Step(s, i, patient).0, Note(s, h, Move(i, patient));
    var p := s.threads[i].phase;
    assert CallOk(i, s.threads[i], h.calls[i]);
    var r := Sent(i, Parcel(p.prio, p.datum));
    assert h'.log == h.log + [r];
    LogMore(h.log, r);
    ArrangedMore(Pending(h.log), r.parcel);
    SamePlace(s.messages, p.prio);
    ParcelsInsert(s.messages, Place(s.messages, p.prio), Message(p.b, p.prio, p.datum, s.clock));
    forall j | 0 <= j < |s'.threads| ensures CallOk(j, s'.threads[j], h'.calls[j]) {
      if j != i { assert CallOk(j, s.threads[j], h.calls[j]); }
    }
  }

  lemma RemoveTold(s: State, h: History, i: nat, patient: bool)
    requires Told(s, h) && i < |s.threads| && s.threads[i].phase.Removing? && s.messages != []
    ensures Told(Step(s, i, patient).0, Note(s, h, Move(i, patient)))
  {
    hide Legal, Pending, Arranged;
    var s', h' := Step(s, i, patient).0, Note(s, h, Move(i, patient));
    assert CallOk(i, s.threads[i], h.calls[i]);
    var q := Pending(h.log);
    var r := Got(i, Parcel(s.messages[0].prio, s.messages[0].datum));
    assert h'.log == h.log + [r];
    FirstIsNext(q);
    LogMore(h.log, r);
    assert Parcels(s'.messages) == Parcels(s.messages)[1..];
    forall j | 0 <= j < |s'.threads| ensures CallOk(j, s'.threads[j], h'.calls[j]) {
      if j != i { assert CallOk(j, s.threads[j], h.calls[j]); }
    }
  }

  lemma MoveTold(s: State, h: History, i: nat, patient: bool)
    requires Inv(s) && Told(s, h) && i < |s.threads|
    ensures Told(Step(s, i, patient).0, Note(s, h, Move(i, patient)))
  {
    hide Inv, Told, Step, Note;
    StepKeeps(s, i, patient);
    if s.threads[i].phase.Inserting? {
      InsertTold(s, h, i, patient);
    } else if s.threads[i].phase.Removing? {
      RemoveStep(s, i);
      RemoveTold(s, h, i, patient);
    } else {
      QuietTold(s, h, i, patient);
    }
  }

  lemma {:induction false} ToldOnRun(s: State, h: History, run: seq<Event>, s': State, h': History)
    requires Inv(s) && Told(s, h) && LeadsNoting(s, h, run, s', h')
    ensures Inv(s') && Told(s', h') && Leads(s, run, s')
    decreases |run|
  {
    hide Inv, Told, Step, Begin, Note;
    if run != [] {
      match run[0] {
        case Enter(i, r) =>
          BeginKeeps(s, i, r);
          EnterTold(s, h, i, r);
        case Move(i, patient) =>
          StepKeeps(s, i, patient);
          MoveTold(s, h, i, patient);
      }
      ToldOnRun(Happen(s, run[0]).0, Note(s, h, run[0]), run[1..], s', h');
    }
  }

  lemma FreshTold(s: State, h: History)
    requires Fresh(s, h)
    ensures Inv(s) && Told(s, h)
  {
    hide Inv;
    StartInv(s);
  }

  // ----- what the callers are promised

  /**
   Over every interleaving, what a call answers is what it was asked for. A put that is done has sent exactly its own
   message, once; a get returns exactly the message that it has received, once; a call that gives up has done nothing; an
   allocation that is done has given its thread one block more, and a free has given back the block that it was asked to.
   */
  lemma CallsAreAnswered(s0: State, h0: History, run: seq<Event>, s: State, h: History, i: nat, patient: bool)
    requires Fresh(s0, h0) && LeadsNoting(s0, h0, run, s, h) && i < |s.threads|
    ensures |h.calls| == |s.threads|
    ensures var (s', out) := Step(s, i, patient);
            out != GoesOn ==>
              && h.calls[i].Some?
              && var c := h.calls[i].value; var held := s'.threads[i].held;
                 match out
                 case Received(datum, prio) => c.request == Get && c.records == [Got(i, Parcel(prio, datum))]
                 case GivesUp => c.records == [] && held == c.before && !c.request.Free?
                 case Done =>
                   (match c.request
                    case Put(prio, datum) => c.records == [Sent(i, Parcel(prio, datum))] && held == c.before
                    case Get => |c.records| == 1 && c.records[0].Got? && held == c.before
                    case Alloc => c.records == [] && |held| == |c.before| + 1 && held[..|c.before|] == c.before
                    case Free(k) => c.records == [] && k < |c.before| && held == RemoveAt(c.before, k))
                 case _ => false
    ensures s.threads[i].phase.Freeing? && h.calls[i].Some? && h.calls[i].value.request.Free? ==>
              var c := h.calls[i].value;
              c.request.index < |c.before| && Step(s, i, patient).0.free == [c.before[c.request.index]] + s.free
  {
    hide Inv, Start, Legal, Pending, Arranged, Parcels, LeadsNoting, Fresh, Store;
    FreshTold(s0, h0);
    ToldOnRun(s0, h0, run, s, h);
    StepKeeps(s, i, patient);
    assert CallOk(i, s.threads[i], h.calls[i]);
    if s.threads[i].phase.Copying? { CopyStep(s, i); }
  }

  /**
   One queue behind all interleavings: whatever has been received was, at that moment, the parcel sent first among those
   of the highest priority that were waiting, and what the list of messages contains is what has been sent and not been
   received, in the order in which it will be.
   */
  lemma QueueIsFair(s0: State, h0: History, run: seq<Event>, s: State, h: History, k: nat)
    requires Fresh(s0, h0) && LeadsNoting(s0, h0, run, s, h)
    ensures k < |h.log| && h.log[k].Got? ==>
              ComesNext(Pending(h.log[..k]), h.log[k].parcel)
    ensures multiset(Parcels(s.messages)) == multiset(Pending(h.log))
    ensures s.messages != [] ==> ComesNext(Pending(h.log), Parcels(s.messages)[0])
  {
    hide Inv, Start, Arranged, Parcels, LeadsNoting, CallOk, Pending, Next, Fresh, IsNext, RemoveAt;
    FreshTold(s0, h0);
    ToldOnRun(s0, h0, run, s, h);
    SameParcels(Pending(h.log));
    if s.messages != [] { FirstIsNext(Pending(h.log)); }
    if k < |h.log| && h.log[k].Got? {
      var q := Pending(h.log[..k]);
      assert IsNext(q, Next(q));
    }
  }

  lemma {:induction false} SameParcels(q: seq<Parcel>)
    ensures multiset(Arranged(q)) == multiset(q)
  {
    if q != [] {
      var n := |q| - 1;
      SameParcels(q[..n]);
      assert q == q[..n] + [q[n]];
      var r := Arranged(q[..n]);
      InsertAtMembers(r, PlaceOf(r, q[n].prio), q[n]);
    }
  }
}
