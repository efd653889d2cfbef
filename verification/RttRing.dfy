/**
 The ring buffer of the real-time terminal: a byte buffer with a write and a read offset, one byte of it always
 unused. The several writers and the reader, coded over unsigned 32-bit offsets, all refine one byte queue.
 */
module RttRing {
  import opened Types

  type Byte = b: nat | b < 256

  /** What unsigned arithmetic makes of `x`. */
  function U(x: int): nat { x % WORD }

  lemma Unsigned(x: int)
    requires 0 <= x + WORD && x < WORD
    ensures U(x) == if x >= 0 then x else x + WORD
  {}

  function Min(a: nat, b: nat): nat { if a < b then a else b }

  /** The queued bytes of a ring: from the read offset up to the write offset, round the end. */
  function Between<T>(b: seq<T>, rd: nat, wr: nat): (r: seq<T>)
    requires rd < |b| && wr < |b|
    ensures |r| == if rd <= wr then wr - rd else |b| - rd + wr
  {
    if rd <= wr then b[rd..wr] else b[rd..] + b[..wr]
  }

  /** `src` copied to position `at` of `b`. */
  function Overlay<T>(b: seq<T>, at: nat, src: seq<T>): (r: seq<T>)
    requires at + |src| <= |b|
    ensures |r| == |b|
  {
    b[..at] + src + b[at + |src|..]
  }

  /** Free bytes of a ring. */
  function Room(size: nat, rd: nat, wr: nat): nat
    requires rd < size && wr < size
  {
    if rd <= wr then size - 1 - (wr - rd) else rd - wr - 1
  }

  /** The offset `n` bytes further round. */
  function Forward(size: nat, off: nat, n: nat): (r: nat)
    requires off < size && n < size
    ensures r < size
  {
    if off + n < size then off + n else off + n - size
  }

  lemma Rooms(size: nat, rd: nat, wr: nat)
    requires rd < size && wr < size
    ensures Room(size, rd, wr) == if rd <= wr then size - 1 - (wr - rd) else rd - wr - 1
  {}

  // ----- the ring as a queue

  lemma RoomLeft<T>(b: seq<T>, rd: nat, wr: nat)
    requires rd < |b| && wr < |b|
    ensures Room(|b|, rd, wr) + |Between(b, rd, wr)| == |b| - 1
  {}

  lemma BetweenAt<T>(b: seq<T>, rd: nat, wr: nat, i: nat)
    requires rd < |b| && wr < |b| && i < |Between(b, rd, wr)|
    ensures Between(b, rd, wr)[i] == b[Forward(|b|, rd, i)]
  {}

  lemma OverlayAt<T>(b: seq<T>, at: nat, src: seq<T>, j: nat)
    requires at + |src| <= |b| && j < |b|
    ensures Overlay(b, at, src)[j] == if at <= j < at + |src| then src[j - at] else b[j]
  {}

  /** A copy behind the write offset that does not reach the end of the buffer. */
  lemma AppendStraight<T>(b: seq<T>, rd: nat, wr: nat, src: seq<T>)
    requires rd < |b| && wr < |b| && wr + |src| < |b| && |src| <= Room(|b|, rd, wr)
    ensures Between(Overlay(b, wr, src), rd, wr + |src|) == Between(b, rd, wr) + src
  {
    hide Between, Overlay;
    var q, q' := Between(b, rd, wr), Between(Overlay(b, wr, src), rd, wr + |src|);
    forall i | 0 <= i < |q'| ensures q'[i] == (q + src)[i] {
      BetweenAt(Overlay(b, wr, src), rd, wr + |src|, i);
      OverlayAt(b, wr, src, Forward(|b|, rd, i));
      if i < |q| { BetweenAt(b, rd, wr, i); }
    }
  }

  /** A copy up to the end of the buffer, continued at its start. */
  lemma AppendWrapped<T>(b: seq<T>, rd: nat, wr: nat, src: seq<T>)
    requires rd < |b| && wr < |b| && |b| <= wr + |src| && |src| <= Room(|b|, rd, wr)
    ensures var rem := |b| - wr;
            && |src| - rem < |b|
            && Between(Overlay(Overlay(b, wr, src[..rem]), 0, src[rem..]), rd, |src| - rem) == Between(b, rd, wr) + src
  {
    hide Between, Overlay;
    var rem := |b| - wr;
    var b1 := Overlay(b, wr, src[..rem]);
    var b2 := Overlay(b1, 0, src[rem..]);
    var q, q' := Between(b, rd, wr), Between(b2, rd, |src| - rem);
    forall i | 0 <= i < |q'| ensures q'[i] == (q + src)[i] {
      var j := Forward(|b|, rd, i);
      BetweenAt(b2, rd, |src| - rem, i);
      OverlayAt(b1, 0, src[rem..], j);
      OverlayAt(b, wr, src[..rem], j);
      if i < |q| { BetweenAt(b, rd, wr, i); }
    }
  }

  lemma DropForward<T>(b: seq<T>, rd: nat, wr: nat, k: nat)
    requires rd < |b| && wr < |b| && k <= |Between(b, rd, wr)|
    ensures Between(b, Forward(|b|, rd, k), wr) == Between(b, rd, wr)[k..]
  {}

  /** A stretch of the buffer is a stretch of the queue. */
  lemma SliceAt<T>(b: seq<T>, rd: nat, wr: nat, k: nat, n: nat)
    requires rd < |b| && wr < |b| && k + n <= |Between(b, rd, wr)|
    requires Forward(|b|, rd, k) + n <= |b|
    ensures b[Forward(|b|, rd, k)..Forward(|b|, rd, k) + n] == Between(b, rd, wr)[k..k + n]
  {
    hide Between;
    var off := Forward(|b|, rd, k);
    var x, y := b[off..off + n], Between(b, rd, wr)[k..k + n];
    forall i | 0 <= i < n ensures x[i] == y[i] {
      BetweenAt(b, rd, wr, k + i);
    }
  }

  /** The first part of a read, up to the end of the buffer, and the offset behind it. */
  function FirstPart(size: nat, rd: nat, wr: nat, max: nat): (n: nat)
    requires rd < size
    ensures n <= max && rd + n <= size
  {
    if rd > wr then Min(size - rd, max) else 0
  }

  function AfterFirst(size: nat, rd: nat, wr: nat, max: nat): (r: nat)
    requires rd < size
    ensures r < size
  {
    var n := FirstPart(size, rd, wr, max);
    if rd + n == size then 0 else rd + n
  }

  /** The second part, computed without a sign. */
  function SecondPart(size: nat, rd: nat, wr: nat, max: nat): (m: nat)
    requires rd < size
    ensures m <= max - FirstPart(size, rd, wr, max)
  {
    Min(U(wr - AfterFirst(size, rd, wr, max)), max - FirstPart(size, rd, wr, max))
  }

  lemma PartsAre(size: nat, rd: nat, wr: nat, max: nat)
    requires rd < size
    ensures SecondPart(size, rd, wr, max) ==
              Min(U(wr - AfterFirst(size, rd, wr, max)), max - FirstPart(size, rd, wr, max))
  {}

  /** The lengths of the two parts: an underflow is cut off by what is left to read. */
  lemma PartsFit(size: nat, rd: nat, wr: nat, max: nat)
    requires rd < size && wr < size <= 0x8000_0000 && max < WORD
    ensures var n := FirstPart(size, rd, wr, max); var m := SecondPart(size, rd, wr, max);
            var used := size - 1 - Room(size, rd, wr);
            && n + m == Min(max, used) && AfterFirst(size, rd, wr, max) + m < size
            && n < size && AfterFirst(size, rd, wr, max) == Forward(size, rd, n)
            && AfterFirst(size, rd, wr, max) + m == Forward(size, rd, n + m)
  {
    hide U;
    Unsigned(wr - AfterFirst(size, rd, wr, max));
  }

  /** The two parts of a read together are the oldest bytes of the queue. */
  lemma ReadParts<T>(b: seq<T>, rd: nat, wr: nat, max: nat)
    requires rd < |b| && wr < |b| && max < WORD && |b| <= 0x8000_0000
    ensures var n := FirstPart(|b|, rd, wr, max); var r := AfterFirst(|b|, rd, wr, max); var m := SecondPart(|b|, rd, wr, max);
            var q := Between(b, rd, wr);
            && r + m < |b| && n + m == Min(max, |q|)
            && b[rd..rd + n] + b[r..r + m] == q[..n + m]
            && Between(b, r + m, wr) == q[n + m..]
  {
    hide Between, FirstPart, SecondPart, AfterFirst, U;
    PartsFit(|b|, rd, wr, max);
    RoomLeft(b, rd, wr);
    var n, m := FirstPart(|b|, rd, wr, max), SecondPart(|b|, rd, wr, max);
    var q := Between(b, rd, wr);
    SliceAt(b, rd, wr, 0, n);
    SliceAt(b, rd, wr, n, m);
    assert q[..n + m] == q[0..n] + q[n..n + m];
    DropForward(b, rd, wr, n + m);
  }

  /** One round of the blocking writer: a chunk that ends at the end of the buffer at the latest. */
  lemma AppendChunk<T>(b: seq<T>, rd: nat, wr: nat, chunk: seq<T>)
    requires rd < |b| && wr < |b| && wr + |chunk| <= |b| && |chunk| <= Room(|b|, rd, wr)
    ensures var wr' := if wr + |chunk| == |b| then 0 else wr + |chunk|;
            && Between(Overlay(b, wr, chunk), rd, wr') == Between(b, rd, wr) + chunk
            && Room(|b|, rd, wr') == Room(|b|, rd, wr) - |chunk|
  {
    hide Between, Overlay;
    if wr + |chunk| < |b| {
      AppendStraight(b, rd, wr, chunk);
    } else {
      AppendWrapped(b, rd, wr, chunk);
      assert chunk[..|chunk|] == chunk && chunk[|chunk|..] == [];
      EmptyOverlay(Overlay(b, wr, chunk), 0);
    }
  }

  lemma EmptyOverlay<T>(b: seq<T>, at: nat)
    requires at <= |b|
    ensures Overlay(b, at, []) == b
  {}

  // ----- the writers and the reader on values

  /** `_WriteNoCheck`: the new bytes and the new write offset. */
  function NoCheck<T>(b: seq<T>, wr: nat, src: seq<T>): (r: (seq<T>, nat))
    requires wr < |b| && |src| < |b|
  {
    var rem := |b| - wr;
    if rem > |src| then (Overlay(b, wr, src), wr + |src|)
    else (Overlay(Overlay(b, wr, src[..rem]), 0, src[rem..]), |src| - rem)
  }

  lemma NoCheckAppends<T>(b: seq<T>, rd: nat, wr: nat, src: seq<T>)
    requires rd < |b| && wr < |b| && |src| <= Room(|b|, rd, wr)
    ensures var (b', wr') := NoCheck(b, wr, src);
            |b'| == |b| && wr' < |b| && Between(b', rd, wr') == Between(b, rd, wr) + src
  {
    hide Between, Overlay;
    if |b| - wr > |src| {
      AppendStraight(b, rd, wr, src);
    } else {
      AppendWrapped(b, rd, wr, src);
    }
  }

  /** Skip mode of `SEGGER_RTT_WriteNoLock`: everything or nothing. */
  function SkipMode<T>(b: seq<T>, rd: nat, wr: nat, src: seq<T>): (r: (seq<T>, nat, nat))
    requires rd < |b| && wr < |b|
  {
    if Room(|b|, rd, wr) < |src| then (b, wr, 0)
    else var (b', wr') := NoCheck(b, wr, src); (b', wr', |src|)
  }

  /** `SEGGER_RTT_WriteSkipNoLock`, case by case. */
  function SkipWrite<T>(b: seq<T>, rd: nat, wr: nat, src: seq<T>): (r: (seq<T>, nat, nat))
    requires rd < |b| && wr < |b|
  {
    if rd <= wr then
      var avail := |b| - wr - 1;
      if avail >= |src| then (Overlay(b, wr, src), wr + |src|, 1)
      else if avail + rd >= |src| then
        var rem := |b| - wr;
        (Overlay(Overlay(b, wr, src[..rem]), 0, src[rem..]), |src| - rem, 1)
      else (b, wr, 0)
    else if rd - wr - 1 >= |src| then (Overlay(b, wr, src), wr + |src|, 1)
    else (b, wr, 0)
  }

  /** The two differently coded skip writers leave the same bytes and the same offset. */
  lemma SkipWritersAgree<T>(b: seq<T>, rd: nat, wr: nat, src: seq<T>)
    requires rd < |b| && wr < |b| && src != []
    ensures var (b1, wr1, n) := SkipMode(b, rd, wr, src); var (b2, wr2, done) := SkipWrite(b, rd, wr, src);
            b1 == b2 && wr1 == wr2 && (done == 1 <==> n == |src|) && (done == 0 <==> n == 0)
  {
    hide Overlay;
  }

  /** The rounds of the overwriting writer after the first one: each starts at offset 0. */
  function Rounds<T>(b: seq<T>, src: seq<T>): (r: (seq<T>, nat))
    requires |b| >= 2
    ensures |r.0| == |b| && r.1 < |b| - 1 && r.0[|b| - 1] == b[|b| - 1]
    decreases |src|
  {
    if src == [] then (b, 0)
    else if |b| - 1 > |src| then (Overlay(b, 0, src), |src|)
    else
      OverlayAt(b, 0, src[..|b| - 1], |b| - 1);
      Rounds(Overlay(b, 0, src[..|b| - 1]), src[|b| - 1..])
  }

  /** An offset brought back into the buffer by subtraction. */
  function Reduced(x: nat, size: nat): (r: nat)
    requires size > 0
    ensures r < size
  {
    if x < size then x else Reduced(x - size, size)
  }

  /** The read offset after making room for `n` bytes. */
  function GivenWay(size: nat, rd: nat, wr: nat, n: nat): (r: nat)
    requires rd < size && wr < size
    ensures r < size
  {
    var avail := Room(size, rd, wr);
    if n > avail then Reduced(rd + (n - avail), size) else rd
  }

  function AllRounds<T>(b: seq<T>, wr: nat, src: seq<T>): (r: (seq<T>, nat))
    requires wr < |b| && |b| >= 2
    ensures |r.0| == |b| && r.1 < |b|
  {
    if |b| - wr > |src| then (Overlay(b, wr, src), wr + |src|)
    else Rounds(Overlay(b, wr, src[..|b| - wr]), src[|b| - wr..])
  }

  /** `SEGGER_RTT_WriteWithOverwriteNoLock`: bytes, read offset, write offset. */
  function Overwrite<T>(b: seq<T>, rd: nat, wr: nat, src: seq<T>): (r: (seq<T>, nat, nat))
    requires rd < |b| && wr < |b| && |b| >= 2
  {
    var (b', wr') := AllRounds(b, wr, src);
    (b', GivenWay(|b|, rd, wr, |src|), wr')
  }

  /** The last `n` elements. */
  function Last<T>(s: seq<T>, n: nat): seq<T> {
    if n <= |s| then s[|s| - n..] else s
  }

  /** Where the offsets end up as long as one wrap is enough. */
  lemma OverwriteOffsets<T>(b: seq<T>, rd: nat, wr: nat, src: seq<T>)
    requires rd < |b| && wr < |b| && |b| >= 2 && |src| + wr < 2 * |b| - 1
    ensures var (b', rd', wr') := Overwrite(b, rd, wr, src); var size, n := |b|, |src|;
            && |b'| == size && rd' < size
            && wr' == (if wr + n < size then wr + n else wr + n - size)
            && (if n <= Room(size, rd, wr) then rd' == rd
                else rd' == if wr + n + 1 < size then wr + n + 1 else wr + n + 1 - size)
  {
    hide Between, Overlay;
    var size, n := |b|, |src|;
    if n > Room(size, rd, wr) {
      var x := rd + (n - Room(size, rd, wr));
      assert x == wr + n + 1 || x == wr + n + 1 - size;
      assert x >= size ==> Reduced(x - size, size) == x - size;
    }
  }

  /** What the byte at offset `j` is then. */
  lemma OverwriteByte<T>(b: seq<T>, rd: nat, wr: nat, src: seq<T>, j: nat)
    requires rd < |b| && wr < |b| && |b| >= 2 && |src| + wr < 2 * |b| - 1 && j < |b|
    ensures var size, n := |b|, |src|;
            |Overwrite(b, rd, wr, src).0| == size &&
            Overwrite(b, rd, wr, src).0[j] ==
              if wr + n >= size && j < wr + n - size then src[j + size - wr]
              else if wr <= j < wr + n then src[j - wr] else b[j]
  {
    hide Between, Overlay;
    var size, n := |b|, |src|;
    if size - wr > n {
      OverlayAt(b, wr, src, j);
    } else {
      var b1 := Overlay(b, wr, src[..size - wr]);
      OverlayAt(b, wr, src[..size - wr], j);
      OverlayAt(b1, 0, src[size - wr..], j);
    }
  }

  /**
   The overwriting writer keeps the last bytes of everything, as long as what it writes needs one wrap at most:
   in particular for up to `size` - 1 bytes.
   */
  lemma OverwriteKeepsLast<T>(b: seq<T>, rd: nat, wr: nat, src: seq<T>)
    requires rd < |b| && wr < |b| && |b| >= 2 && |src| + wr < 2 * |b| - 1
    ensures var (b', rd', wr') := Overwrite(b, rd, wr, src);
            && |b'| == |b| && rd' < |b| && wr' < |b|
            && Between(b', rd', wr') == Last(Between(b, rd, wr) + src, |b| - 1)
  {
    hide Between, Overlay, Overwrite;
    var size := |b|;
    OverwriteOffsets(b, rd, wr, src);
    var (b', rd', wr') := Overwrite(b, rd, wr, src);
    var q := Between(b, rd, wr);
    var q' := Between(b', rd', wr');
    var all := q + src;
    var lost := if |all| > size - 1 then |all| - (size - 1) else 0;
    assert |q'| == |all| - lost;
    forall i | 0 <= i < |q'| ensures q'[i] == all[lost + i] {
      BetweenAt(b', rd', wr', i);
      OverwriteByte(b, rd, wr, src, Forward(size, rd', i));
      if lost + i < |q| { BetweenAt(b, rd, wr, lost + i); }
    }
    assert q' == Last(all, size - 1);
  }

  /** `n` zeros, but for a one at index `k`. */
  function Marked(n: nat, k: nat): (r: seq<nat>)
    ensures |r| == n && forall i :: 0 <= i < n ==> r[i] == if i == k then 1 else 0
  {
    seq(n, (i: nat) => if i == k then 1 else 0)
  }

  /**
   Exactly then: a longer write goes wrong for some bytes, because every further round forgets the last byte of
   the buffer.
   */
  lemma OverwriteExactly(b: seq<nat>, rd: nat, wr: nat, n: nat)
    requires rd < |b| && wr < |b| && |b| >= 2
    ensures (forall src: seq<nat> :: |src| == n ==>
               var (b', rd', wr') := Overwrite(b, rd, wr, src);
               rd' < |b'| && wr' < |b'| && Between(b', rd', wr') == Last(Between(b, rd, wr) + src, |b| - 1))
            <==> n + wr < 2 * |b| - 1
  {
    if n + wr < 2 * |b| - 1 {
      forall src: seq<nat> | |src| == n
        ensures var (b', rd', wr') := Overwrite(b, rd, wr, src);
                rd' < |b'| && wr' < |b'| && Between(b', rd', wr') == Last(Between(b, rd, wr) + src, |b| - 1)
      {
        OverwriteKeepsLast(b, rd, wr, src);
      }
    } else {
      OverwriteForgets(b, rd, wr, n);
    }
  }

  lemma OverwriteForgets(b: seq<nat>, rd: nat, wr: nat, n: nat)
    requires rd < |b| && wr < |b| && |b| >= 2 && n + wr >= 2 * |b| - 1
    ensures exists src: seq<nat> :: |src| == n &&
              var (b', rd', wr') := Overwrite(b, rd, wr, src);
              rd' < |b'| && wr' < |b'| && Between(b', rd', wr') != Last(Between(b, rd, wr) + src, |b| - 1)
  {
    hide Between, Overlay, Rounds;
    var size := |b|;
    var src := Marked(n, size - 1 - wr);
    var (b', rd', wr') := Overwrite(b, rd, wr, src);
    var q, q' := Between(b, rd, wr), Between(b', rd', wr');
    OverlayAt(b, wr, src[..size - wr], size - 1);
    assert b'[size - 1] == 1 && wr' < size - 1;
    var all := q + src;
    assert |Last(all, size - 1)| == size - 1;
    if |q'| == size - 1 {
      BetweenAt(b', rd', wr', size - 1 - rd');
      assert q'[size - 1 - rd'] == 1;
      assert Last(all, size - 1)[size - 1 - rd'] == src[n - (size - 1) + size - 1 - rd'];
    }
  }

  lemma Continued<T>(taken: seq<T>, kept: seq<T>, q: seq<T>, src: seq<T>, m: nat, n: nat)
    requires m + n <= |src| && taken + kept == q + src[..m]
    ensures taken + (kept + src[m..][..n]) == q + src[..m + n]
  {
    assert src[..m + n] == src[..m] + src[m..][..n];
    assert taken + (kept + src[m..][..n]) == (taken + kept) + src[m..][..n];
  }

  // ----- the up buffer

  datatype Mode = Skip | Trim | Block | OtherMode

  /** `SEGGER_RTT_BUFFER_UP`, with the program as the only one to move the offsets. */
  class UpBuffer {
    const data: array<Byte>
    const mode: Mode
    var wr: nat
    var rd: nat

    ghost predicate Valid()
      reads this
    {
      2 <= data.Length <= 0x8000_0000 && wr < data.Length && rd < data.Length
    }

    /** The queue that the buffer holds. */
    ghost function Content(): seq<Byte>
      reads this, data
      requires Valid()
    {
      Between(data[..], rd, wr)
    }

    constructor (data: array<Byte>, mode: Mode)
      requires 2 <= data.Length <= 0x8000_0000
      ensures Valid() && this.data == data && this.mode == mode && Content() == []
    {
      this.data := data;
      this.mode := mode;
      wr, rd := 0, 0;
    }

    /** `_GetAvailWriteSpace`: the capacity is one less than the size. */
    method AvailWriteSpace() returns (n: nat)
      requires Valid()
      ensures n == Room(data.Length, rd, wr) && n + |Content()| == data.Length - 1
    {
      if rd <= wr {
        n := U(data.Length - 1 - wr + rd);
      } else {
        n := U(rd - wr - 1);
      }
    }

    /** The byte loop behind every writer. */
    method CopyIn(at: nat, src: seq<Byte>)
      requires at + |src| <= data.Length
      modifies data
      ensures data[..] == Overlay(old(data[..]), at, src)
    {
      var i := 0;
      while i < |src|
        invariant 0 <= i <= |src|
        invariant forall j :: 0 <= j < data.Length ==> data[j] == if at <= j < at + i then src[j - at] else old(data[j])
      {
        data[at + i] := src[i];
        i := i + 1;
      }
    }

    /** `_WriteNoCheck` */
    method WriteNoCheck(src: seq<Byte>)
      requires Valid() && |src| <= Room(data.Length, rd, wr)
      modifies this`wr, data
      ensures Valid() && (data[..], wr) == NoCheck(old(data[..]), old(wr), src)
      ensures Content() == old(Content()) + src
    {
      NoCheckAppends(data[..], rd, wr, src);
      var rem := data.Length - wr;
      if rem > |src| {
        CopyIn(wr, src);
        wr := wr + |src|;
      } else {
        CopyIn(wr, src[..rem]);
        CopyIn(0, src[rem..]);
        wr := |src| - rem;
      }
    }

    /**
     `SEGGER_RTT_WriteNoLock`: everything or nothing, as much as fits, or everything, waiting for the `host`. In the
     modes that do not wait the read offset stays.
     */
    method Write(src: seq<Byte>, host: seq<nat>) returns (status: nat, ghost taken: seq<Byte>)
      requires Valid()
      modifies this`wr, this`rd, data
      ensures Valid()
      ensures !mode.Block? ==> rd == old(rd) && taken == []
      ensures mode.Skip? ==> (data[..], wr, status) == SkipMode(old(data[..]), rd, old(wr), src)
      ensures mode.Skip? ==> status == if |src| <= data.Length - 1 - |old(Content())| then |src| else 0
      ensures mode.Trim? ==> status == Min(|src|, data.Length - 1 - |old(Content())|)
      ensures mode.OtherMode? ==> status == 0
      ensures mode.Block? && status < |src| ==> Room(data.Length, rd, wr) == 0
      ensures status <= |src| && taken + Content() == old(Content()) + src[..status]
    {
      status, taken := 0, [];
      if mode.Block? {
        status, taken := WriteBlocking(src, host);
        return;
      }
      var avail := AvailWriteSpace();
      match mode
      case Skip =>
        if avail >= |src| {
          status := |src|;
          WriteNoCheck(src);
          assert src[..status] == src;
        }
      case Trim =>
        status := if avail < |src| then avail else |src|;
        WriteNoCheck(src[..status]);
      case OtherMode =>
    }

    /** `SEGGER_RTT_WriteSkipNoLock`, which is not for empty writes. */
    method WriteSkip(src: seq<Byte>) returns (done: nat)
      requires Valid() && src != []
      modifies this`wr, data
      ensures Valid() && (data[..], wr, done) == SkipWrite(old(data[..]), rd, old(wr), src)
      ensures done == if |src| <= data.Length - 1 - |old(Content())| then 1 else 0
      ensures Content() == if done == 1 then old(Content()) + src else old(Content())
    {
      hide Between, Overlay, Room;
      ghost var b, w := data[..], wr;
      Rooms(data.Length, rd, wr);
      RoomLeft(b, rd, wr);
      if rd <= wr {
        var avail := data.Length - wr - 1;
        if avail >= |src| {
          AppendStraight(b, rd, w, src);
          CopyIn(wr, src);
          wr := wr + |src|;
          return 1;
        }
        avail := avail + rd;
        if avail >= |src| {
          var rem := data.Length - wr;
          AppendWrapped(b, rd, w, src);
          CopyIn(wr, src[..rem]);
          if |src| - rem > 0 {
            CopyIn(0, src[rem..]);
          } else {
            assert src[rem..] == [];
            EmptyOverlay(data[..], 0);
          }
          wr := |src| - rem;
          return 1;
        }
      } else {
        var avail := U(rd - wr - 1);
        if avail >= |src| {
          AppendStraight(b, rd, w, src);
          CopyIn(wr, src);
          wr := wr + |src|;
          return 1;
        }
      }
      return 0;
    }

    /** Copy out of the buffer what lies behind the read offset. */
    method CopyOut(at: nat, n: nat) returns (out: seq<Byte>)
      requires at + n <= data.Length
      ensures out == data[at..at + n]
    {
      out := [];
      var i := 0;
      while i < n
        invariant 0 <= i <= n && out == data[at..at + i]
      {
        out := out + [data[at + i]];
        i := i + 1;
      }
    }

    /**
     `SEGGER_RTT_ReadUpBufferNoLock`: the oldest bytes, as many as are asked for. After a partial read of
     the first part `wr` - `rd` underflows, which does no harm since nothing more is asked for.
     */
    method Read(bufferSize: nat) returns (out: seq<Byte>)
      requires Valid() && bufferSize < WORD
      modifies this`rd
      ensures Valid()
      ensures out == old(Content())[..Min(bufferSize, |old(Content())|)]
      ensures Content() == old(Content())[Min(bufferSize, |old(Content())|)..]
    {
      hide Between, U, Min, SecondPart;
      ReadParts(data[..], rd, wr, bufferSize);
      PartsAre(data.Length, rd, wr, bufferSize);
      var left, r := bufferSize, rd;
      out := [];
      if r > wr {
        var n := Min(data.Length - r, left);
        assert n == FirstPart(data.Length, rd, wr, bufferSize);
        out := CopyOut(r, n);
        left := left - n;
        r := r + n;
        if r == data.Length {
          r := 0;
        }
      }
      var rem := Min(U(wr - r), left);
      if rem > 0 {
        var more := CopyOut(r, rem);
        out := out + more;
        r := r + rem;
      }
      if |out| > 0 {
        rd := r;
      }
    }

    /** One round of `_WriteBlocking`: copy, then publish. */
    method Publish(chunk: seq<Byte>)
      requires Valid() && |chunk| <= Room(data.Length, rd, wr) && wr + |chunk| <= data.Length
      modifies this`wr, data
      ensures Valid() && Content() == old(Content()) + chunk
      ensures Room(data.Length, rd, wr) == old(Room(data.Length, rd, wr)) - |chunk|
    {
      hide Between, Overlay;
      AppendChunk(data[..], rd, wr, chunk);
      CopyIn(wr, chunk);
      wr := if wr + |chunk| == data.Length then 0 else wr + |chunk|;
    }

    /** The host takes up to `n` of the oldest bytes and moves the read offset behind them. */
    method HostTakes(n: nat) returns (ghost bytes: seq<Byte>)
      requires Valid()
      modifies this`rd
      ensures Valid() && old(Content()) == bytes + Content() && |bytes| == Min(n, |old(Content())|)
    {
      hide Between, Room;
      RoomLeft(data[..], rd, wr);
      var used := data.Length - 1 - (if rd <= wr then data.Length - 1 - (wr - rd) else rd - wr - 1);
      Rooms(data.Length, rd, wr);
      var k := Min(n, used);
      bytes := Content()[..k];
      DropForward(data[..], rd, wr, k);
      rd := if rd + k < data.Length then rd + k else rd + k - data.Length;
    }

    /** One turn of the loop in `_WriteBlocking`: as much as fits, up to the end of the buffer. */
    method WriteChunk(rest: seq<Byte>) returns (n: nat)
      requires Valid()
      modifies this`wr, data
      ensures Valid() && n <= |rest| && n <= old(Room(data.Length, rd, wr)) && Content() == old(Content()) + rest[..n]
      ensures Room(data.Length, rd, wr) == old(Room(data.Length, rd, wr)) - n
      ensures n == 0 <==> rest == [] || old(Room(data.Length, rd, wr)) == 0
    {
      hide Between, Overlay;
      if rd > wr {
        n := U(rd - wr - 1);
      } else {
        n := U(data.Length - (wr - rd + 1));
      }
      n := Min(n, data.Length - wr);
      n := Min(n, |rest|);
      Publish(rest[..n]);
    }

    /**
     `_WriteBlocking`. `host` says how many bytes the host takes before each look at the read offset; once that is
     over it takes none any more. Everything is written in order; it stops short only where it would wait for ever, with
     the buffer full and the host silent.
     */
    method WriteBlocking(src: seq<Byte>, host: seq<nat>) returns (written: nat, ghost taken: seq<Byte>)
      requires Valid()
      modifies this`wr, this`rd, data
      ensures Valid() && written <= |src| && taken + Content() == old(Content()) + src[..written]
      ensures written < |src| ==> Room(data.Length, rd, wr) == 0
      ensures host == [] ==> rd == old(rd) && taken == [] && written == Min(|src|, Room(data.Length, rd, old(wr)))
    {
      hide Between, Overlay, Room;
      ghost var q, room := Content(), Room(data.Length, rd, wr);
      written, taken := 0, [];
      var i, n := 0, 1;
      while written < |src| && (n > 0 || i < |host|)
        invariant Valid() && written <= |src| && i <= |host|
        invariant taken + Content() == q + src[..written]
        invariant host == [] ==> rd == old(rd) && taken == [] && Room(data.Length, rd, wr) == room - written
        invariant n == 0 && written < |src| ==> Room(data.Length, rd, wr) == 0
        decreases |host| - i, |src| - written, n
      {
        ghost var was := Content();
        if i < |host| {
          ghost var bytes := HostTakes(host[i]);
          assert taken + was == (taken + bytes) + Content();
          taken := taken + bytes;
          i := i + 1;
        }
        ghost var kept := Content();
        ghost var before := written;
        n := WriteChunk(src[written..]);
        written := written + n;
        Continued(taken, kept, q, src, before, n);
      }
    }

    /** Ahead of an overwriting write: the read offset gives way. */
    method GiveWay(n: nat)
      requires Valid() && n < 0x8000_0000
      modifies this`rd
      ensures Valid() && rd == GivenWay(data.Length, old(rd), wr, n)
    {
      var avail: nat;
      if wr == rd {
        avail := data.Length - 1;
      } else if wr < rd {
        avail := rd - wr - 1;
      } else {
        avail := U(rd - wr - 1 + data.Length);
      }
      if n > avail {
        rd := rd + (n - avail);
        while rd >= data.Length
          invariant Reduced(rd, data.Length) == GivenWay(data.Length, old(rd), wr, n)
        {
          rd := rd - data.Length;
        }
      }
    }

    /** The rounds of an overwriting write. */
    method WriteRounds(src: seq<Byte>)
      requires Valid()
      modifies this`wr, data
      ensures Valid() && (data[..], wr) == AllRounds(old(data[..]), old(wr), src)
    {
      hide Overlay;
      ghost var target := AllRounds(data[..], wr, src);
      var rest := src;
      var avail := data.Length - wr;
      var first, last := true, false;
      while (first || rest != []) && !last
        invariant Valid()
        invariant first ==> avail == data.Length - wr && AllRounds(data[..], wr, rest) == target
        invariant !first && !last ==> wr == 0 && avail == data.Length - 1 && Rounds(data[..], rest) == target
        invariant last ==> (data[..], wr) == target
        decreases !last, first, |rest|
      {
        if avail > |rest| {
          CopyIn(wr, rest);
          wr := wr + |rest|;
          last := true;
        } else {
          CopyIn(wr, rest[..avail]);
          wr := 0;
          rest := rest[avail..];
          avail := data.Length - 1;
        }
        first := false;
      }
    }

    /** `SEGGER_RTT_WriteWithOverwriteNoLock`, whatever is written. */
    method WriteWithOverwrite(src: seq<Byte>)
      requires Valid() && |src| < 0x8000_0000
      modifies this`wr, this`rd, data
      ensures Valid() && (data[..], rd, wr) == Overwrite(old(data[..]), old(rd), old(wr), src)
      ensures |src| + old(wr) < 2 * data.Length - 1 ==> Content() == Last(old(Content()) + src, data.Length - 1)
    {
      hide Between, GivenWay, AllRounds;
      if |src| + wr < 2 * data.Length - 1 { OverwriteKeepsLast(data[..], rd, wr, src); }
      GiveWay(|src|);
      WriteRounds(src);
    }

    /** `_PostTerminalSwitch`: a marker byte and the digit of the terminal. */
    method PostTerminalSwitch(id: nat)
      requires Valid() && id < 16 && Room(data.Length, rd, wr) >= 2
      modifies this`wr, this`rd, data
      ensures Valid() && Content() == old(Content()) + SwitchTo(id) && rd == old(rd)
    {
      ghost var q := Content();
      var n, taken := WriteBlocking(SwitchTo(id), []);
      assert [] + Content() == Content() && SwitchTo(id)[..2] == SwitchTo(id);
    }

    /**
     `SEGGER_RTT_TerminalOut` in the modes that do not wait: the switch to the terminal, as much of the string as
     the mode allows, and the switch back, or nothing at all. It never waits for the host.
     */
    method TerminalOut(id: nat, active: nat, s: seq<Byte>) returns (status: int)
      requires Valid() && active < 16 && |s| < 0x8000_0000 && !mode.Block?
      modifies this`wr, this`rd, data
      ensures Valid() && rd == old(rd)
      ensures Content() == old(Content()) + TerminalBytes(mode, id, active, s, data.Length - 1 - |old(Content())|)
      ensures status == TerminalStatus(mode, id, s, data.Length - 1 - |old(Content())|)
    {
      hide Between;
      status := -1;
      if id < 16 {
        var avail := AvailWriteSpace();
        match mode
        case Skip =>
          if avail < |s| + 4 {
            status := 0;
          } else {
            status := SwitchedWrite(id, active, s);
          }
        case Trim =>
          if avail >= 4 {
            status := SwitchedWrite(id, active, s[..if |s| < avail - 4 then |s| else avail - 4]);
          }
        case OtherMode =>
      }
    }

    method SwitchedWrite(id: nat, active: nat, s: seq<Byte>) returns (written: nat)
      requires Valid() && id < 16 && active < 16 && |s| + 4 <= Room(data.Length, rd, wr)
      modifies this`wr, this`rd, data
      ensures Valid() && written == |s| && rd == old(rd)
      ensures Content() == old(Content()) + (SwitchTo(id) + s + SwitchTo(active))
    {
      hide Between, Room;
      RoomLeft(data[..], rd, wr);
      ghost var q := Content();
      PostTerminalSwitch(id);
      RoomLeft(data[..], rd, wr);
      ghost var taken;
      written, taken := WriteBlocking(s, []);
      assert [] + Content() == Content() && s[..|s|] == s;
      RoomLeft(data[..], rd, wr);
      PostTerminalSwitch(active);
      assert Content() == q + SwitchTo(id) + s + SwitchTo(active);
    }

    /** `SEGGER_RTT_GetBytesInBuffer` */
    method BytesInBuffer() returns (n: nat)
      requires Valid()
      ensures n == |Content()| <==> rd <= wr
    {
      if rd <= wr {
        n := wr - rd;
      } else {
        n := U(data.Length - U(wr - rd));
      }
    }
  }

  /** The digits of the sixteen terminals. */
  const TERMINAL_IDS: seq<Byte> := [48, 49, 50, 51, 52, 53, 54, 55, 56, 57, 65, 66, 67, 68, 69, 70]

  function SwitchTo(id: nat): (r: seq<Byte>)
    requires id < 16
    ensures |r| == 2
  {
    [0xFF, TERMINAL_IDS[id]]
  }

  /** What a terminal output appends when `room` bytes are free. */
  function TerminalBytes(mode: Mode, id: nat, active: nat, s: seq<Byte>, room: nat): seq<Byte>
    requires active < 16
  {
    if id >= 16 then []
    else if mode.Skip? && room >= |s| + 4 then SwitchTo(id) + s + SwitchTo(active)
    else if mode.Trim? && room >= 4 then SwitchTo(id) + s[..Min(|s|, room - 4)] + SwitchTo(active)
    else []
  }

  function TerminalStatus(mode: Mode, id: nat, s: seq<Byte>, room: nat): int {
    if id >= 16 then -1
    else if mode.Skip? then if room >= |s| + 4 then |s| else 0
    else if mode.Trim? && room >= 4 then Min(|s|, room - 4)
    else -1
  }
}
