/**
 The real-time clock: a 64-bit counter at 32768 Hz that is read as two 32-bit registers while it ticks.
 */
module Clock {
  import opened Bytes

  const FREQUENCY: nat := 0x8000
  const NANOS_PER_SEC: nat := 1_000_000_000

  type Word64 = x: int | 0 <= x < 0x1_0000_0000_0000_0000

  // ---- Durations ------------------------------------------------------------------------------------------------

  datatype Duration = Duration(secs: nat, nanos: nat)

  function InNanos(d: Duration): nat {
    d.secs * NANOS_PER_SEC + d.nanos
  }

  predicate Less(d: Duration, e: Duration) {
    d.secs < e.secs || (d.secs == e.secs && d.nanos < e.nanos)
  }

  /** What a tick's share of nanoseconds is divided by: 512 as it is written, 64 as it has to be. */
  datatype Divisor = Written | Exact

  function Scale(divisor: Divisor): (s: nat)
    ensures s > 0
  {
    match divisor
    case Written => 512
    case Exact => 64
  }

  function FromTicks(divisor: Divisor, ticks: nat): (d: Duration)
    ensures d.nanos < NANOS_PER_SEC
  {
    Duration(ticks / FREQUENCY, 1_953_125 * (ticks % FREQUENCY) / Scale(divisor))
  }

  /** `unchecked_duration_since` */
  function Since(divisor: Divisor, later: Word64, earlier: Word64): Duration {
    FromTicks(divisor, (later - earlier) % 0x1_0000_0000_0000_0000)
  }

  lemma SinceInOrder(divisor: Divisor, later: Word64, earlier: Word64)
    requires earlier <= later
    ensures Since(divisor, later, earlier) == FromTicks(divisor, later - earlier)
  {
  }

  /** With 64 a duration is that of its ticks, rounded down to nanoseconds. */
  lemma ExactIsFloor(ticks: nat)
    ensures InNanos(FromTicks(Exact, ticks)) == ticks * NANOS_PER_SEC / FREQUENCY
  {
  }

  /** With 512 it is so for whole seconds only. */
  lemma WrittenIsFloorIff(ticks: nat)
    ensures InNanos(FromTicks(Written, ticks)) == ticks * NANOS_PER_SEC / FREQUENCY <==> ticks % FREQUENCY == 0
  {
  }

  lemma Monotone(divisor: Divisor, ticks: nat, more: nat)
    requires ticks <= more
    ensures !Less(FromTicks(divisor, more), FromTicks(divisor, ticks))
  {
  }

  /** Ticks that are not reported as less than a duration last at least as long, with either divisor. */
  lemma LongEnough(divisor: Divisor, ticks: nat, dur: Duration)
    requires dur.nanos < NANOS_PER_SEC && !Less(FromTicks(divisor, ticks), dur)
    ensures ticks * NANOS_PER_SEC >= InNanos(dur) * FREQUENCY
  {
  }

  /** With 64 a duration has passed at the first tick that makes it long enough. */
  lemma ExactStopsInTime(ticks: nat, dur: Duration)
    requires dur.nanos < NANOS_PER_SEC
    ensures !Less(FromTicks(Exact, ticks), dur) <==> ticks * NANOS_PER_SEC >= InNanos(dur) * FREQUENCY
  {
  }

  /** With 512 a duration with more than an eighth of a second beside its seconds has not passed before the next one. */
  lemma WrittenStopsAtNextSecond(ticks: nat, dur: Duration)
    requires dur.nanos >= 125_000_000
    ensures !Less(FromTicks(Written, ticks), dur) <==> ticks / FREQUENCY > dur.secs
  {
  }

  // ---- Reading the counter --------------------------------------------------------------------------------------

  /** A counter whose upper half is the same before and after has that upper half in between. */
  lemma SameHalf(a: Word64, b: Word64, c: Word64)
    requires a <= b <= c && a / U32 == c / U32
    ensures b == a / U32 * U32 + b % U32
  {
  }

  /**
   The registers and when they are read: `counter(k)` is the value of the counter at the time of read number `k`. Any
   number of ticks may fall between two reads, but `quiet(k)` pairs after any read number `k` there come four reads
   within one tick.
   */
  class Rtc {
    const counter: nat -> Word64
    ghost const quiet: nat -> nat
    var accesses: nat

    predicate NoLater(j: nat, k: nat) {
      j <= k ==> counter(j) <= counter(k)
    }

    ghost predicate Settles(k: nat) {
      counter(k + 2 * quiet(k)) == counter(k + 2 * quiet(k) + 3)
    }

    ghost predicate Valid() {
      && (forall j: nat, k: nat :: NoLater(j, k))
      && (forall k: nat :: Settles(k))
    }

    constructor (counter: nat -> Word64, ghost quiet: nat -> nat)
      ensures this.counter == counter && this.quiet == quiet && accesses == 0
    {
      this.counter, this.quiet, accesses := counter, quiet, 0;
    }

    method ReadHigh() returns (x: Word32)
      modifies this
      ensures accesses == old(accesses) + 1 && x == counter(old(accesses)) / U32
    {
      x := counter(accesses) / U32;
      accesses := accesses + 1;
    }

    method ReadLow() returns (x: Word32)
      modifies this
      ensures accesses == old(accesses) + 1 && x == counter(old(accesses)) % U32
    {
      x := counter(accesses) % U32;
      accesses := accesses + 1;
    }

    method ReadPair() returns (high: Word32, low: Word32)
      modifies this
      ensures accesses == old(accesses) + 2
      ensures high == counter(old(accesses)) / U32 && low == counter(old(accesses) + 1) % U32
    {
      high := ReadHigh();
      low := ReadLow();
    }

    lemma Rising(k: nat)
      requires Valid()
      ensures counter(k) <= counter(k + 1) <= counter(k + 2) <= counter(k + 3)
    {
      assert NoLater(k, k + 1) && NoLater(k + 1, k + 2) && NoLater(k + 2, k + 3);
    }

    /** The value the counter had at one of the accesses of this call. */
    method Now() returns (value: Word64, ghost at: nat)
      requires Valid()
      modifies this
      ensures old(accesses) <= at < accesses && value == counter(at)
      ensures at <= old(accesses + 2 * quiet(accesses)) + 3
    {
      ghost var first, pair, pairs := accesses, accesses, 0;
      assert Settles(first);
      var high, low := ReadPair();
      while true
        invariant accesses == pair + 2 && pair == first + 2 * pairs && pairs <= quiet(first)
        invariant high == counter(pair) / U32 && low == counter(pair + 1) % U32
        decreases quiet(first) - pairs
      {
        Rising(pair);
        var newHigh, newLow := ReadPair();
        if newLow == low && newHigh == high {
          SameHalf(counter(pair), counter(pair + 1), counter(pair + 2));
          value, at := high * U32 + low, pair + 1;
          return;
        }
        assert pairs != quiet(first);
        low := newLow;
        high := newHigh;
        pair, pairs := pair + 2, pairs + 1;
      }
    }

    /** `elapsed` of an instant taken before: the assertion in `duration_since` holds. */
    method Elapsed(divisor: Divisor, start: Word64, ghost taken: nat) returns (d: Duration, ghost at: nat)
      requires Valid() && taken < accesses && start == counter(taken)
      modifies this
      ensures old(accesses) <= at < accesses && start <= counter(at) && d == FromTicks(divisor, counter(at) - start)
    {
      var now;
      now, at := Now();
      assert NoLater(taken, at);
      SinceInOrder(divisor, now, start);
      d := Since(divisor, now, start);
    }

    /**
     Returns after at least the duration. It does return, because the clock gets far enough by the read number `last`.
     */
    method Wait(divisor: Divisor, dur: Duration, ghost last: nat) returns (ghost from: nat, ghost to: nat)
      requires Valid() && dur.nanos < NANOS_PER_SEC
      requires var settled := accesses + 2 * quiet(accesses) + 3;
               settled <= last && NoLater(settled, last)
               && !Less(FromTicks(divisor, counter(last) - counter(settled)), dur)
      modifies this
      ensures old(accesses) <= from < to < accesses
      ensures (counter(to) - counter(from)) * NANOS_PER_SEC >= InNanos(dur) * FREQUENCY
    {
      var start;
      start, from := Now();
      ghost var settled := old(accesses + 2 * quiet(accesses)) + 3;
      assert NoLater(from, settled) && NoLater(settled, last);
      while true
        invariant from < accesses
        decreases if accesses <= last then last - accesses + 1 else 0
      {
        var now;
        now, to := Now();
        assert NoLater(from, to);
        SinceInOrder(divisor, now, start);
        var d := Since(divisor, now, start);
        if last <= to {
          assert NoLater(last, to);
          Monotone(divisor, counter(last) - counter(settled), now - start);
        }
        if !Less(d, dur) {
          LongEnough(divisor, now - start, dur);
          return;
        }
      }
    }
  }
}
