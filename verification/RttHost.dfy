/**
 The blocking writer of the real-time terminal against the host, which reads the buffer through the debug port at
 the same time: one step is one access of an offset or of a byte.
 */
module RttHost {
  import opened RttRing

  /** `Snapshot` is about to read the read offset; `Copying` has copied `j` of `n` bytes and publishes them at the end. */
  datatype Writer = Idle | Snapshot | Copying(n: nat, j: nat)

  /**
   `todo` are the bytes of the current write that are not yet published. `hand` are the bytes that the host has read
   without having moved the read offset, `got` those it has taken. `accepted` is all that was ever to be written.
   */
  datatype State = State(
    buf: seq<Byte>, wr: nat, rd: nat,
    writer: Writer, todo: seq<Byte>,
    hand: seq<Byte>, got: seq<Byte>,
    accepted: seq<Byte>)

  datatype Action = Write(src: seq<Byte>) | Go | Fetch | Advance(k: nat)

  predicate Shape(s: State) {
    s.wr < |s.buf| && s.rd < |s.buf|
  }

  predicate Enabled(s: State, a: Action) {
    && Shape(s)
    && match a
       case Write(_) => s.writer.Idle?
       case Go => !s.writer.Idle? && (s.writer.Copying? ==> s.writer.n <= |s.todo| && s.wr + s.writer.n <= |s.buf|)
       case Fetch => |s.hand| < |Between(s.buf, s.rd, s.wr)|
       case Advance(k) => k <= |s.hand| && k < |s.buf|
  }

  function Step(s: State, a: Action): State
    requires Enabled(s, a)
  {
    match a
    case Write(src) => s.(writer := Snapshot, todo := src, accepted := s.accepted + src)
    case Go =>
      (match s.writer
       case Snapshot =>
         s.(writer := Copying(Min(Min(Room(|s.buf|, s.rd, s.wr), |s.buf| - s.wr), |s.todo|), 0))
       case Copying(n, j) =>
         if j < n then s.(buf := s.buf[s.wr + j := s.todo[j]], writer := Copying(n, j + 1))
         else
           var rest := s.todo[n..];
           s.(wr := if s.wr + n == |s.buf| then 0 else s.wr + n, todo := rest,
              writer := if rest == [] then Idle else Snapshot))
    case Fetch => s.(hand := s.hand + [s.buf[Forward(|s.buf|, s.rd, |s.hand|)]])
    case Advance(k) => s.(rd := Forward(|s.buf|, s.rd, k), got := s.got + s.hand[..k], hand := s.hand[k..])
  }

  ghost predicate Inv(s: State) {
    && Shape(s)
    && s.got + Between(s.buf, s.rd, s.wr) + s.todo == s.accepted
    && |s.hand| <= |Between(s.buf, s.rd, s.wr)| && s.hand == Between(s.buf, s.rd, s.wr)[..|s.hand|]
    && (s.writer.Idle? ==> s.todo == [])
    && (s.writer.Copying? ==>
          var n, j := s.writer.n, s.writer.j;
          && j <= n <= |s.todo| && s.wr + n <= |s.buf| && n <= Room(|s.buf|, s.rd, s.wr)
          && forall i :: 0 <= i < j ==> s.buf[s.wr + i] == s.todo[i])
  }

  /** The bytes between the write and the read offset are not part of the queue. */
  lemma Outside<T>(b: seq<T>, rd: nat, wr: nat, j: nat, x: T)
    requires rd < |b| && wr < |b| && j < Room(|b|, rd, wr) && wr + j < |b|
    ensures Between(b[wr + j := x], rd, wr) == Between(b, rd, wr)
  {}

  lemma Already<T>(b: seq<T>, at: nat, src: seq<T>)
    requires at + |src| <= |b| && forall i :: 0 <= i < |src| ==> b[at + i] == src[i]
    ensures Overlay(b, at, src) == b
  {}

  lemma PublishKeeps(s: State)
    requires Inv(s) && s.writer.Copying? && s.writer.j == s.writer.n
    ensures Enabled(s, Go) && Inv(Step(s, Go))
  {
    hide Between, Overlay, Room;
    var n := s.writer.n;
    var chunk := s.todo[..n];
    Already(s.buf, s.wr, chunk);
    AppendChunk(s.buf, s.rd, s.wr, chunk);
    var q := Between(s.buf, s.rd, s.wr);
    assert s.got + q + s.todo == s.got + (q + chunk) + s.todo[n..];
  }

  lemma CopyKeeps(s: State)
    requires Inv(s) && s.writer.Copying? && s.writer.j < s.writer.n
    ensures Enabled(s, Go) && Inv(Step(s, Go))
    ensures Between(Step(s, Go).buf, s.rd, s.wr) == Between(s.buf, s.rd, s.wr)
  {
    Outside(s.buf, s.rd, s.wr, s.writer.j, s.todo[s.writer.j]);
    hide Between, Room;
  }

  lemma AdvanceKeeps(s: State, k: nat)
    requires Inv(s) && Enabled(s, Advance(k))
    ensures Inv(Step(s, Advance(k)))
  {
    hide Between;
    DropForward(s.buf, s.rd, s.wr, k);
    RoomLeft(s.buf, s.rd, s.wr);
    var q := Between(s.buf, s.rd, s.wr);
    RoomLeft(s.buf, Forward(|s.buf|, s.rd, k), s.wr);
    assert q == s.hand[..k] + q[k..];
    assert s.got + q == (s.got + s.hand[..k]) + q[k..];
    assert s.hand[k..] == q[k..][..|s.hand| - k];
  }

  lemma FetchKeeps(s: State)
    requires Inv(s) && Enabled(s, Fetch)
    ensures Inv(Step(s, Fetch))
  {
    hide Between;
    BetweenAt(s.buf, s.rd, s.wr, |s.hand|);
  }

  lemma StepKeeps(s: State, a: Action)
    requires Inv(s) && Enabled(s, a)
    ensures Inv(Step(s, a))
  {
    match a
    case Write(src) =>
      assert s.got + Between(s.buf, s.rd, s.wr) + src == s.accepted + src;
    case Go =>
      if s.writer.Copying? {
        if s.writer.j < s.writer.n { CopyKeeps(s); } else { PublishKeeps(s); }
      }
    case Fetch => FetchKeeps(s);
    case Advance(k) => AdvanceKeeps(s, k);
  }

  ghost predicate Start(s: State) {
    && Shape(s) && s.rd == s.wr && s.writer.Idle?
    && s.todo == [] && s.hand == [] && s.got == [] && s.accepted == []
  }

  ghost predicate Leads(s: State, run: seq<Action>, s': State)
    decreases |run|
  {
    if run == [] then s' == s else Enabled(s, run[0]) && Leads(Step(s, run[0]), run[1..], s')
  }

  lemma {:induction false} RunKeeps(s: State, run: seq<Action>, s': State)
    requires Inv(s) && Leads(s, run, s')
    ensures Inv(s')
    decreases |run|
  {
    hide Inv, Step, Enabled;
    if run != [] {
      StepKeeps(s, run[0]);
      RunKeeps(Step(s, run[0]), run[1..], s');
    }
  }

  /**
   In every interleaving with the host: what it has taken, then what the buffer holds, then what is still to be
   written, is exactly what was accepted; what it has read but not yet taken is still in the buffer; and no step
   of the writer changes an unread byte.
   */
  lemma HostSeesAPrefix(s0: State, run: seq<Action>, s: State)
    requires Start(s0) && Leads(s0, run, s)
    ensures Shape(s)
    ensures s.got + Between(s.buf, s.rd, s.wr) + s.todo == s.accepted
    ensures s.got + s.hand <= s.accepted && s.hand <= Between(s.buf, s.rd, s.wr)
    ensures s.writer.Copying? && s.writer.j < s.writer.n ==>
              Enabled(s, Go) && Between(Step(s, Go).buf, s.rd, s.wr) == Between(s.buf, s.rd, s.wr)
  {
    hide Leads, Room;
    assert Inv(s0);
    RunKeeps(s0, run, s);
    hide Between;
    var q := Between(s.buf, s.rd, s.wr);
    assert s.accepted == (s.got + s.hand) + (q[|s.hand|..] + s.todo);
    if s.writer.Copying? && s.writer.j < s.writer.n { CopyKeeps(s); }
  }
}
