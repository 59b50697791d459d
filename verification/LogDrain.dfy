/**
 Draining the log: `peek` interrupted by pushes at any point, the buffer as the object that the code updates in place,
 and the flush before a reset.
 */
module LogDrain {
  import opened Arith
  import opened Bytes
  import opened LogRing
  import opened Sequences

  function Min(a: nat, b: nat): nat {
    if a < b then a else b
  }

  /** How many pending bytes lie in one piece after the read cursor. */
  function SegmentLen(r: Ring): nat
    requires 0 < |r.data|
  {
    Min(Len(r), |r.data| - r.read % |r.data|)
  }

  function Segment(r: Ring): seq<Byte>
    requires 0 < |r.data|
  {
    r.data[r.read % |r.data|..r.read % |r.data| + SegmentLen(r)]
  }

  function Advance(r: Ring, k: nat): Ring {
    r.(read := (r.read + k) % WORD)
  }

  lemma LenAfterAdvance(r: Ring, k: nat)
    requires Valid(r) && k <= Len(r)
    ensures Len(Advance(r, k)) == Len(r) - k
  {
    var d := r.write - r.read;
    if 0 <= d { ModUnique(d, WORD, 0, d); } else { ModUnique(d, WORD, -1, d + WORD); }
    if r.read + k < WORD {
      ModUnique(r.read + k, WORD, 0, r.read + k);
    } else {
      ModUnique(r.read + k, WORD, 1, r.read + k - WORD);
    }
    var e := r.write - (r.read + k) % WORD;
    if 0 <= e { ModUnique(e, WORD, 0, e); } else { ModUnique(e, WORD, -1, e + WORD); }
  }

  lemma ModShift(x: nat, j: nat, c: nat)
    requires 0 < c && WORD % c == 0
    ensures (x % WORD + j) % c == (x + j) % c
  {
    var q, k := x / WORD, WORD / c;
    var d, m := (x % WORD + j) / c, (x % WORD + j) % c;
    assert x == q * WORD + x % WORD && WORD == k * c;
    calc {
      x + j;
      q * (k * c) + (d * c + m);
      (q * k + d) * c + m;
    }
    ModUnique(x + j, c, q * k + d, m);
  }

  /** Advancing the read counter consumes that many of the oldest bytes. */
  lemma AdvanceDrops(r: Ring, k: nat)
    requires Valid(r) && k <= Len(r)
    ensures Valid(Advance(r, k)) && View(Advance(r, k)) == View(r)[k..]
  {
    LenAfterAdvance(r, k);
    forall j: nat | j < Len(r) - k
      ensures Place(Advance(r, k), j) == Place(r, k + j)
    {
      ModShift(r.read + k, j, |r.data|);
    }
  }

  /** The piece shown to the consumer is the oldest part of what is pending. */
  lemma SegmentIsOldest(r: Ring, n: nat)
    requires Valid(r) && n <= SegmentLen(r)
    ensures r.data[r.read % |r.data|..r.read % |r.data| + n] == View(r)[..n]
  {
    forall j: nat | j < n
      ensures Place(r, j) == r.read % |r.data| + j
    {
      ModAdd(r.read, j, |r.data|);
    }
  }

  // ---- peek under pre-emption -----------------------------------------------------------------------------------

  /** Where the consumer is: outside `peek`, after the load of `read`, or running the closure on a slice. */
  datatype Reader = Resting | ReadLoaded(read: nat) | Showing(read: nat, n: nat, shown: seq<Byte>)

  /** `pushed` and `consumed` are histories. */
  datatype Logger = Logger(ring: Ring, reader: Reader, pushed: seq<Byte>, consumed: seq<Byte>)

  datatype Action = PushBy(bytes: seq<Byte>) | LoadRead | LoadWrite | Consume(reported: nat)

  function Step(split: Split, s: Logger, a: Action): (o: seq<Logger>)
    requires 0 < |s.ring.data|
    ensures |o| <= 1
    ensures o != [] ==> |o[0].ring.data| == |s.ring.data|
  {
    match a
    case PushBy(bytes) =>
      (match Push(split, s.ring, bytes)
       case Done(ring) => [s.(ring := ring, pushed := s.pushed + bytes)]
       case _ => [])
    case LoadRead => if s.reader.Resting? then [s.(reader := ReadLoaded(s.ring.read))] else []
    case LoadWrite =>
      if !s.reader.ReadLoaded? then [] else
      var cap, cursor := |s.ring.data|, s.reader.read % |s.ring.data|;
      var n := Min((s.ring.write - s.reader.read) % WORD, cap - cursor);
      if n == 0 then [s.(reader := Resting)]
      else [s.(reader := Showing(s.reader.read, n, s.ring.data[cursor..cursor + n]))]
    case Consume(reported) =>
      if !s.reader.Showing? then [] else
      var k := Min(reported, s.reader.n);
      [Logger(s.ring.(read := (s.reader.read + k) % WORD), Resting, s.pushed,
              s.consumed + s.reader.shown[..Min(k, |s.reader.shown|)])]
  }

  /** Runs in which no push fails or copies out of bounds, and every wrapping push splits at the end of the buffer. */
  ghost predicate Runs(split: Split, s: Logger, acts: seq<Action>, s': Logger)
    requires 0 < |s.ring.data|
    decreases |acts|
  {
    if acts == [] then s' == s
    else
      && (acts[0].PushBy? ==> SplitsAtEnd(split, s.ring, |acts[0].bytes|))
      && Step(split, s, acts[0]) != []
      && Runs(split, Step(split, s, acts[0])[0], acts[1..], s')
  }

  ghost predicate FifoInv(s: Logger) {
    && Valid(s.ring)
    && s.pushed == s.consumed + View(s.ring)
    && (s.reader.ReadLoaded? ==> s.reader.read == s.ring.read)
    && (s.reader.Showing? ==>
          && s.reader.read == s.ring.read && 0 < s.reader.n <= SegmentLen(s.ring)
          && s.reader.shown == s.ring.data[s.ring.read % |s.ring.data|..s.ring.read % |s.ring.data| + s.reader.n])
  }

  lemma PushKeepsSegment(split: Split, r: Ring, bytes: seq<Byte>, n: nat)
    requires Valid(r) && SplitsAtEnd(split, r, |bytes|) && Push(split, r, bytes).Done? && n <= SegmentLen(r)
    ensures var r' := Push(split, r, bytes).ring;
            && Valid(r') && n <= SegmentLen(r') && r'.read == r.read && |r'.data| == |r.data|
            && r'.data[r.read % |r.data|..r.read % |r.data| + n] == r.data[r.read % |r.data|..r.read % |r.data| + n]
  {
    PushAppends(split, r, bytes);
    var r' := Push(split, r, bytes).ring;
    assert |View(r')| == Len(r) + |bytes|;
    SegmentIsOldest(r, n);
    SegmentIsOldest(r', n);
    assert View(r')[..n] == View(r)[..n];
  }

  lemma ConsumeKeepsFifo(split: Split, s: Logger, reported: nat)
    requires FifoInv(s) && s.reader.Showing?
    ensures FifoInv(Step(split, s, Consume(reported))[0])
  {
    var k, view := Min(reported, s.reader.n), View(s.ring);
    AdvanceDrops(s.ring, k);
    SegmentIsOldest(s.ring, s.reader.n);
    TakeTake(view, k, s.reader.n);
    MoveFront(s.consumed, view, k);
  }

  lemma PushByKeepsFifo(split: Split, s: Logger, bytes: seq<Byte>)
    requires FifoInv(s) && SplitsAtEnd(split, s.ring, |bytes|) && Step(split, s, PushBy(bytes)) != []
    ensures FifoInv(Step(split, s, PushBy(bytes))[0])
  {
    PushAppends(split, s.ring, bytes);
    assert s.consumed + View(s.ring) + bytes == s.consumed + (View(s.ring) + bytes);
    if s.reader.Showing? {
      PushKeepsSegment(split, s.ring, bytes, s.reader.n);
    }
  }

  lemma StepKeepsFifo(split: Split, s: Logger, a: Action)
    requires FifoInv(s) && Step(split, s, a) != []
    requires a.PushBy? ==> SplitsAtEnd(split, s.ring, |a.bytes|)
    ensures FifoInv(Step(split, s, a)[0])
  {
    match a
    case PushBy(bytes) => PushByKeepsFifo(split, s, bytes);
    case Consume(reported) => ConsumeKeepsFifo(split, s, reported);
    case _ =>
  }

  /**
   In every run, wherever the pushes interrupt `peek`, the bytes pushed are those consumed followed by those pending,
   of which there are at most the capacity, and a slice being shown still holds what it held when it was handed out.
   */
  lemma {:induction false} LogIsFifo(split: Split, s: Logger, acts: seq<Action>, s': Logger)
    requires FifoInv(s) && Runs(split, s, acts, s')
    ensures FifoInv(s')
    ensures s'.pushed == s'.consumed + View(s'.ring) && |View(s'.ring)| <= |s'.ring.data|
    ensures s'.reader.Showing? ==>
              && s'.reader.shown == s'.ring.data[s'.ring.read % |s'.ring.data|..
                                                 s'.ring.read % |s'.ring.data| + s'.reader.n]
              && s'.reader.shown <= View(s'.ring)
    decreases |acts|
  {
    if acts == [] {
      if s'.reader.Showing? {
        SegmentIsOldest(s'.ring, s'.reader.n);
      }
    } else {
      StepKeepsFifo(split, s, acts[0]);
      LogIsFifo(split, Step(split, s, acts[0])[0], acts[1..], s');
    }
  }

  /** Filling the end of the buffer first, no push ever copies out of bounds; it fails only for lack of space. */
  lemma WholeSplitIsSafe(s: Logger, bytes: seq<Byte>)
    requires FifoInv(s)
    ensures SplitsAtEnd(Whole, s.ring, |bytes|)
    ensures Step(Whole, s, PushBy(bytes)) == [] <==> |View(s.ring)| + |bytes| > |s.ring.data|
  {
    PushAppends(Whole, s.ring, bytes);
  }

  /** The logger goes on with its bytes in order. */
  ghost predicate KeepsFifo(split: Split, s: Logger, bytes: seq<Byte>)
    requires 0 < |s.ring.data|
  {
    Step(split, s, PushBy(bytes)) != [] && FifoInv(Step(split, s, PushBy(bytes))[0])
  }

  lemma OrderMeansAppended(s: Logger, bytes: seq<Byte>)
    requires FifoInv(s) && KeepsFifo(Written, s, bytes)
    ensures Appended(s.ring, bytes, Push(Written, s.ring, bytes))
  {
    var r' := Push(Written, s.ring, bytes).ring;
    assert s.pushed + bytes == s.consumed + View(r');
    assert View(r') == (s.consumed + View(r'))[|s.consumed|..];
    assert View(s.ring) + bytes == (s.consumed + View(s.ring) + bytes)[|s.consumed|..];
  }

  /**
   As it is written, a push for which there is room keeps the bytes in order, whatever they are and wherever the
   consumer is, exactly when it splits at the end of the buffer: the runs of `LogIsFifo` have all the pushes that do.
   */
  lemma WrittenKeepsFifoIff(s: Logger, n: nat)
    requires FifoInv(s) && |View(s.ring)| + n <= |s.ring.data|
    ensures (forall bytes: seq<Byte> | |bytes| == n :: KeepsFifo(Written, s, bytes))
            <==> SplitsAtEnd(Written, s.ring, n)
  {
    if SplitsAtEnd(Written, s.ring, n) {
      forall bytes: seq<Byte> | |bytes| == n ensures KeepsFifo(Written, s, bytes) {
        PushAppends(Written, s.ring, bytes);
        PushByKeepsFifo(Written, s, bytes);
      }
    } else {
      var bytes := Witness(s.ring, n);
      WrittenPushFails(s.ring, n);
      if KeepsFifo(Written, s, bytes) {
        OrderMeansAppended(s, bytes);
      }
    }
  }

  // ---- The buffer -----------------------------------------------------------------------------------------------

  datatype PushResult = Stored | Panicked | Undefined

  class Buffer {
    var data: array<Byte>
    var read: nat
    var write: nat

    ghost function Contents(): Ring
      reads this, data
    {
      Ring(data[..], read, write)
    }

    ghost predicate Ok()
      reads this, data
    {
      Valid(Contents())
    }

    constructor (storage: array<Byte>)
      requires 0 < storage.Length < WORD && WORD % storage.Length == 0
      ensures Ok() && data == storage && View(Contents()) == []
    {
      data, read, write := storage, 0, 0;
    }

    /** `copy_nonoverlapping` */
    method CopyIn(at: nat, src: seq<Byte>)
      requires at + |src| <= data.Length
      modifies data
      ensures data[..] == Copy(old(data[..]), at, src)
    {
      forall j | 0 <= j < |src| {
        data[at + j] := src[j];
      }
    }

    method CopyBoth(at: nat, bytes: seq<Byte>, pivot: nat)
      requires pivot <= |bytes| && at + pivot <= data.Length && |bytes| - pivot <= data.Length
      modifies data
      ensures data[..] == Copy(Copy(old(data[..]), at, bytes[..pivot]), 0, bytes[pivot..])
    {
      CopyIn(at, bytes[..pivot]);
      CopyIn(0, bytes[pivot..]);
    }

    /** The push as it is written; a copy that would leave the buffer is undefined behaviour and not carried out. */
    method Push(bytes: seq<Byte>) returns (result: PushResult)
      requires Ok()
      modifies this`write, data
      ensures data == old(data) && read == old(read)
      ensures match LogRing.Push(Written, old(Contents()), bytes)
              case Done(ring) => result == Stored && Contents() == ring
              case Full => result == Panicked && Contents() == old(Contents())
              case OutOfBounds => result == Undefined && Contents() == old(Contents())
    {
      var n, cap := |bytes|, data.Length;
      if n > ((read + cap) % WORD - write) % WORD {
        return Panicked;
      }
      var cursor := write % cap;
      if cursor + n > cap {
        var pivot := cursor + n - cap;
        if pivot > n || cursor + pivot > cap || n - pivot > cap {
          return Undefined;
        }
        CopyBoth(cursor, bytes, pivot);
      } else {
        CopyIn(cursor, bytes);
      }
      write := (write + n) % WORD;
      result := Stored;
    }

    /** `peek` with nothing interrupting it: shows the next piece, if there is one, to the consumer `f`. */
    method Peek(f: seq<Byte> -> nat) returns (shown: seq<Byte>)
      requires Ok()
      modifies this`read
      ensures shown == Segment(old(Contents()))
      ensures data == old(data)
      ensures Contents() == if shown == [] then old(Contents()) else Advance(old(Contents()), Min(f(shown), |shown|))
      ensures Ok() && View(Contents()) == old(View(Contents()))[if shown == [] then 0 else Min(f(shown), |shown|)..]
    {
      var cap, cursor := data.Length, read % data.Length;
      var n := Min((write - read) % WORD, cap - cursor);
      shown := data[cursor..cursor + n];
      if n != 0 {
        AdvanceDrops(Contents(), Min(f(shown), n));
        read := (read + Min(f(shown), n)) % WORD;
      }
    }
  }

  /** How many pieces are left to show. */
  function Pieces(r: Ring): nat
    requires 0 < |r.data|
  {
    if Len(r) == 0 then 0 else if Len(r) == SegmentLen(r) then 1 else 2
  }

  lemma PieceShown(r: Ring)
    requires Valid(r) && Len(r) != 0
    ensures Valid(Advance(r, SegmentLen(r))) && View(r) == Segment(r) + View(Advance(r, SegmentLen(r)))
  {
    AdvanceDrops(r, SegmentLen(r));
    SegmentIsOldest(r, SegmentLen(r));
    MoveFront([], View(r), SegmentLen(r));
  }

  lemma PieceCounted(r: Ring)
    requires Valid(r) && Len(r) != 0
    ensures Pieces(Advance(r, SegmentLen(r))) == Pieces(r) - 1
  {
    var n := SegmentLen(r);
    LenAfterAdvance(r, n);
    if n < Len(r) {
      ModAdd(r.read, n, |r.data|);
      ModOfMod(r.read + n, WORD, |r.data|);
    }
  }

  /** One call of `peek` on both rings with a consumer that takes all it is shown: what it sees and what is left. */
  function Pass(r1: Ring, r0: Ring): (seq<Byte>, Ring, Ring)
    requires 0 < |r1.data| && 0 < |r0.data|
  {
    if Segment(r1) != [] then (Segment(r1), Advance(r1, SegmentLen(r1)), r0)
    else if Segment(r0) != [] then (Segment(r0), r1, Advance(r0, SegmentLen(r0)))
    else ([], r1, r0)
  }

  lemma PassProgress(r1: Ring, r0: Ring)
    requires Valid(r1) && Valid(r0)
    ensures var (shown, s1, s0) := Pass(r1, r0);
            && Valid(s1) && Valid(s0) && View(r1) + View(r0) == shown + (View(s1) + View(s0))
            && (Pieces(s1) + Pieces(s0) < Pieces(r1) + Pieces(r0) || Pieces(s1) + Pieces(s0) == 0)
  {
    if Len(r1) != 0 {
      PieceShown(r1);
      PieceCounted(r1);
      Associative(Segment(r1), View(Advance(r1, SegmentLen(r1))), View(r0));
    } else if Len(r0) != 0 {
      PieceShown(r0);
      PieceCounted(r0);
      assert View(r1) == [];
    }
  }

  method PeekBoth(l1: Buffer, l0: Buffer) returns (shown: seq<Byte>)
    requires l1.Ok() && l0.Ok() && l1 != l0 && l1.data != l0.data
    modifies l1`read, l0`read
    ensures l1.Ok() && l0.Ok() && l1.data == old(l1.data) && l0.data == old(l0.data)
    ensures (shown, l1.Contents(), l0.Contents()) == Pass(old(l1.Contents()), old(l0.Contents()))
  {
    var whole := (s: seq<Byte>) => |s|;
    shown := l1.Peek(whole);
    if shown == [] {
      shown := l0.Peek(whole);
    }
  }

  /**
   The flush before a reset, interrupts disabled: four passes, each showing one piece of the first ring that has any,
   send the pending bytes of the interrupt ring and then those of the main ring, and leave both empty.
   */
  method FlushAll(l1: Buffer, l0: Buffer) returns (sent: seq<Byte>)
    requires l1.Ok() && l0.Ok() && l1 != l0 && l1.data != l0.data
    modifies l1`read, l0`read
    ensures sent == old(View(l1.Contents())) + old(View(l0.Contents()))
    ensures l1.Ok() && l0.Ok() && View(l1.Contents()) == [] && View(l0.Contents()) == []
  {
    sent := [];
    ghost var all := View(l1.Contents()) + View(l0.Contents());
    for pass := 0 to 4
      invariant l1.Ok() && l0.Ok() && l1.data == old(l1.data) && l0.data == old(l0.data)
      invariant Pieces(l1.Contents()) + Pieces(l0.Contents()) <= 4 - pass
      invariant sent + (View(l1.Contents()) + View(l0.Contents())) == all
    {
      PassProgress(l1.Contents(), l0.Contents());
      var shown := PeekBoth(l1, l0);
      Associative(sent, shown, View(l1.Contents()) + View(l0.Contents()));
      sent := sent + shown;
    }
    assert Len(l1.Contents()) == 0 && Len(l0.Contents()) == 0;
  }
}
