/**
 The in-memory logger: a byte ring with 32-bit wrapping counters, written by one context and drained by another that
 it may interrupt at any point.
 */
module LogRing {
  import opened Arith
  import opened Bytes

  const WORD: nat := 0x1_0000_0000

  // ---- The ring -------------------------------------------------------------------------------------------------

  datatype Ring = Ring(data: seq<Byte>, read: nat, write: nat)

  /** `write.wrapping_sub(read)` */
  function Len(r: Ring): nat {
    (r.write - r.read) % WORD
  }

  predicate Valid(r: Ring) {
    && 0 < |r.data| < WORD && WORD % |r.data| == 0
    && r.read < WORD && r.write < WORD
    && Len(r) <= |r.data|
  }

  function Place(r: Ring, k: nat): nat
    requires 0 < |r.data|
  {
    (r.read + k) % |r.data|
  }

  /** The bytes pushed and not yet consumed, oldest first. */
  function View(r: Ring): seq<Byte>
    requires 0 < |r.data|
  {
    seq(Len(r), k requires 0 <= k => r.data[Place(r, k)])
  }

  /** `copy_nonoverlapping` into the buffer. */
  function Copy(data: seq<Byte>, at: nat, src: seq<Byte>): (d: seq<Byte>)
    requires at + |src| <= |data|
    ensures |d| == |data|
    ensures forall j :: 0 <= j < |d| ==> d[j] == if at <= j < at + |src| then src[j - at] else data[j]
  {
    data[..at] + src + data[at + |src|..]
  }

  /** How much of a push that wraps around goes to the end of the buffer: as the code computes it, or all that fits. */
  datatype Split = Written | Whole

  function HeadLen(split: Split, cursor: nat, n: nat, cap: nat): int {
    match split
    case Written => cursor + n - cap
    case Whole => cap - cursor
  }

  /** Full is the failed assertion; OutOfBounds is a copy that would leave the buffer. */
  datatype Pushed = Done(ring: Ring) | Full | OutOfBounds

  function Push(split: Split, r: Ring, bytes: seq<Byte>): Pushed
    requires 0 < |r.data|
  {
    var n, cap, cursor := |bytes|, |r.data|, r.write % |r.data|;
    if n > ((r.read + cap) % WORD - r.write) % WORD then Full
    else if cursor + n > cap then
      var head := HeadLen(split, cursor, n, cap);
      if 0 <= head <= n && cursor + head <= cap && n - head <= cap then
        Done(r.(data := Copy(Copy(r.data, cursor, bytes[..head]), 0, bytes[head..]), write := (r.write + n) % WORD))
      else OutOfBounds
    else
      Done(r.(data := Copy(r.data, cursor, bytes), write := (r.write + n) % WORD))
  }

  /** The first copy of a wrapping push fills the buffer exactly to its end. */
  predicate SplitsAtEnd(split: Split, r: Ring, n: nat)
    requires 0 < |r.data|
  {
    var cap, cursor := |r.data|, r.write % |r.data|;
    cursor + n > cap ==> HeadLen(split, cursor, n, cap) == cap - cursor
  }

  lemma FreeSpace(r: Ring)
    requires Valid(r)
    ensures ((r.read + |r.data|) % WORD - r.write) % WORD == |r.data| - Len(r)
  {
    var cap := |r.data|;
    if r.read <= r.write {
      ModUnique(r.write - r.read, WORD, 0, r.write - r.read);
    } else {
      ModUnique(r.write - r.read, WORD, -1, r.write - r.read + WORD);
    }
    var free := cap - Len(r);
    if r.read + cap < WORD {
      ModUnique(r.read + cap, WORD, 0, r.read + cap);
    } else {
      ModUnique(r.read + cap, WORD, 1, r.read + cap - WORD);
    }
    var diff := (r.read + cap) % WORD - r.write;
    if 0 <= diff {
      ModUnique(diff, WORD, 0, diff);
    } else {
      ModUnique(diff, WORD, -1, diff + WORD);
    }
  }

  /** The write cursor is where the element after the last one goes. */
  lemma CursorIsEnd(r: Ring)
    requires Valid(r)
    ensures r.write % |r.data| == Place(r, Len(r))
  {
    ModOfMod(r.read + Len(r), WORD, |r.data|);
    if r.read <= r.write {
      ModUnique(r.write - r.read, WORD, 0, r.write - r.read);
    } else {
      ModUnique(r.write - r.read, WORD, -1, r.write - r.read + WORD);
      ModUnique(r.read + Len(r), WORD, 1, r.write);
    }
  }

  /** Where the `j`th pushed byte belongs: from the cursor up to the end, then from the start. */
  lemma NewPlace(r: Ring, j: nat)
    requires Valid(r) && j <= |r.data|
    ensures var cursor := r.write % |r.data|;
            Place(r, Len(r) + j) == if cursor + j < |r.data| then cursor + j else cursor + j - |r.data|
  {
    CursorIsEnd(r);
    ModAdd(r.read + Len(r), j, |r.data|);
  }

  /** Two places less than a turn apart are different. */
  lemma PlacesDiffer(r: Ring, j: nat, k: nat)
    requires 0 < |r.data| && j < k < j + |r.data|
    ensures Place(r, j) != Place(r, k)
  {
    ModAdd(r.read + j, k - j, |r.data|);
  }

  lemma LenAfterPush(r: Ring, n: nat, r': Ring)
    requires Valid(r) && Len(r) + n <= |r.data| && r'.read == r.read && r'.write == (r.write + n) % WORD
    ensures Len(r') == Len(r) + n
  {
    var d := r.write - r.read;
    if r.read <= r.write {
      ModUnique(d, WORD, 0, d);
    } else {
      ModUnique(d, WORD, -1, d + WORD);
    }
    if r.write + n < WORD {
      ModUnique(r.write + n, WORD, 0, r.write + n);
    } else {
      ModUnique(r.write + n, WORD, 1, r.write + n - WORD);
    }
    var e := r'.write - r'.read;
    if 0 <= e {
      ModUnique(e, WORD, 0, e);
    } else {
      ModUnique(e, WORD, -1, e + WORD);
    }
  }

  lemma OldBytesStay(split: Split, r: Ring, bytes: seq<Byte>, k: nat)
    requires Valid(r) && SplitsAtEnd(split, r, |bytes|) && Push(split, r, bytes).Done? && k < Len(r)
    requires Len(r) + |bytes| <= |r.data|
    ensures Push(split, r, bytes).ring.data[Place(r, k)] == r.data[Place(r, k)]
  {
    var p, cap, cursor := Place(r, k), |r.data|, r.write % |r.data|;
    var j: int := if p >= cursor then p - cursor else p + cap - cursor;
    if j < |bytes| {
      NewPlace(r, j);
      PlacesDiffer(r, k, Len(r) + j);
    }
  }

  lemma NewBytesArrive(split: Split, r: Ring, bytes: seq<Byte>, j: nat)
    requires Valid(r) && SplitsAtEnd(split, r, |bytes|) && Push(split, r, bytes).Done? && j < |bytes|
    requires Len(r) + |bytes| <= |r.data|
    ensures Push(split, r, bytes).ring.data[Place(r, Len(r) + j)] == bytes[j]
  {
    NewPlace(r, j);
  }

  /** What a log push is for. */
  ghost predicate Appended(r: Ring, bytes: seq<Byte>, p: Pushed)
    requires Valid(r)
  {
    && p.Done? && Valid(p.ring) && |p.ring.data| == |r.data| && p.ring.read == r.read
    && View(p.ring) == View(r) + bytes
  }

  lemma ViewAfterPush(split: Split, r: Ring, bytes: seq<Byte>, r': Ring)
    requires Valid(r) && SplitsAtEnd(split, r, |bytes|) && Len(r) + |bytes| <= |r.data|
    requires Push(split, r, bytes) == Done(r') && Len(r') == Len(r) + |bytes|
    ensures View(r') == View(r) + bytes
  {
    forall k: nat | k < Len(r')
      ensures View(r')[k] == (View(r) + bytes)[k]
    {
      if k < Len(r) {
        OldBytesStay(split, r, bytes, k);
      } else {
        NewBytesArrive(split, r, bytes, k - Len(r));
      }
    }
  }

  /** A push that fits and splits at the end of the buffer appends its bytes to what is pending, and nothing else. */
  lemma PushAppends(split: Split, r: Ring, bytes: seq<Byte>)
    requires Valid(r) && SplitsAtEnd(split, r, |bytes|)
    ensures Push(split, r, bytes) == Full <==> Len(r) + |bytes| > |r.data|
    ensures Len(r) + |bytes| <= |r.data| ==> Appended(r, bytes, Push(split, r, bytes))
  {
    FreeSpace(r);
    if Len(r) + |bytes| <= |r.data| {
      var r' := Push(split, r, bytes).ring;
      LenAfterPush(r, |bytes|, r');
      ViewAfterPush(split, r, bytes, r');
    }
  }

  // ---- The push as it is written --------------------------------------------------------------------------------

  /** A message of `n` bytes that differ from the ones they are to replace. */
  function Witness(r: Ring, n: nat): (bytes: seq<Byte>)
    requires 0 < |r.data|
    ensures |bytes| == n
  {
    seq(n, j requires 0 <= j => if r.data[(r.write + j) % |r.data|] == 0 then 1 else 0)
  }

  /** When the first copy stops short, neither copy reaches the last byte of the buffer. */
  lemma LastByteUntouched(r: Ring, bytes: seq<Byte>)
    requires 0 < |r.data| && !SplitsAtEnd(Written, r, |bytes|) && Push(Written, r, bytes).Done? && |bytes| <= |r.data|
    ensures Push(Written, r, bytes).ring.data[|r.data| - 1] == r.data[|r.data| - 1]
  {
  }

  lemma ViewAt(r: Ring, k: nat)
    requires 0 < |r.data| && k < Len(r)
    ensures View(r)[k] == r.data[Place(r, k)]
  {
  }

  /** A ring that shows the witness after the old bytes has replaced the last byte of the buffer. */
  lemma ArrivalReplacesLast(r: Ring, n: nat, r': Ring)
    requires Valid(r) && Len(r) + n <= |r.data| < r.write % |r.data| + n
    requires r'.read == r.read && |r'.data| == |r.data| && View(r') == View(r) + Witness(r, n)
    ensures r'.data[|r.data| - 1] != r.data[|r.data| - 1]
  {
    var j := |r.data| - 1 - r.write % |r.data|;
    NewPlace(r, j);
    assert |View(r')| == Len(r) + n;
    ViewAt(r', Len(r) + j);
    assert (View(r) + Witness(r, n))[Len(r) + j] == Witness(r, n)[j];
    ModAdd(r.write, j, |r.data|);
  }

  /** Some message of that length does not arrive. */
  lemma WrittenPushFails(r: Ring, n: nat)
    requires Valid(r) && Len(r) + n <= |r.data| && !SplitsAtEnd(Written, r, n)
    ensures !Appended(r, Witness(r, n), Push(Written, r, Witness(r, n)))
  {
    var p := Push(Written, r, Witness(r, n));
    if Appended(r, Witness(r, n), p) {
      LastByteUntouched(r, Witness(r, n));
      ArrivalReplacesLast(r, n, p.ring);
    }
  }

  /**
   The push as it is written delivers every message of `n` bytes exactly when the message does not wrap around, or
   wraps with as many bytes after the end of the buffer as before it.
   */
  lemma WrittenPushWorksIff(r: Ring, n: nat)
    requires Valid(r) && Len(r) + n <= |r.data|
    ensures (forall bytes: seq<Byte> | |bytes| == n :: Appended(r, bytes, Push(Written, r, bytes)))
            <==> var left := |r.data| - r.write % |r.data|; n <= left || n == 2 * left
  {
    if SplitsAtEnd(Written, r, n) {
      forall bytes: seq<Byte> | |bytes| == n ensures Appended(r, bytes, Push(Written, r, bytes)) {
        PushAppends(Written, r, bytes);
      }
    } else {
      WrittenPushFails(r, n);
    }
  }

  /** Three bytes into an empty ring of four, two before its end: the second lands where the third belongs. */
  lemma WrittenPushExample()
    ensures var r := Ring([0, 0, 0, 0], 2, 2);
            Valid(r) && Push(Written, r, [7, 8, 9]) == Done(Ring([8, 9, 7, 0], 2, 5))
  {
  }

  /** Four bytes one before its end: the first copy leaves the buffer. */
  lemma WrittenPushLeavesBuffer()
    ensures var r := Ring([0, 0, 0, 0, 0, 0, 0, 0], 7, 7);
            Valid(r) && Push(Written, r, [1, 2, 3, 4]) == OutOfBounds
  {
  }
}
