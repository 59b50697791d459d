/** Bytes and the byte orders of fixed-width integers. */
module Bytes {

  type Byte = b: int | 0 <= b < 256

  const U16: int := 0x1_0000
  const U32: int := 0x1_0000_0000

  type Word16 = x: int | 0 <= x < 0x1_0000
  type Word32 = x: int | 0 <= x < 0x1_0000_0000

  /** Addition in 32 bits. */
  function WrappingAdd(a: Word32, b: Word32): Word32 {
    if a + b < U32 then a + b else a + b - U32
  }

  function Pow256(n: nat): (p: nat)
    ensures p > 0
  {
    if n == 0 then 1 else 256 * Pow256(n - 1)
  }

  // ---- Most significant byte first ------------------------------------------------------------------------------

  function Be(x: nat, n: nat): (s: seq<Byte>)
    ensures |s| == n
  {
    if n == 0 then [] else Be(x / 256, n - 1) + [x % 256]
  }

  function FromBe(s: seq<Byte>): nat {
    if s == [] then 0 else 256 * FromBe(s[..|s| - 1]) + s[|s| - 1]
  }

  lemma {:induction false} FromBeBound(s: seq<Byte>)
    ensures FromBe(s) < Pow256(|s|)
  {
    if s != [] {
      FromBeBound(s[..|s| - 1]);
    }
  }

  lemma {:induction false} BeRoundTrip(x: nat, n: nat)
    requires x < Pow256(n)
    ensures FromBe(Be(x, n)) == x
  {
    if n > 0 {
      BeRoundTrip(x / 256, n - 1);
      assert Be(x, n)[..n - 1] == Be(x / 256, n - 1);
    }
  }

  // ---- Least significant byte first -----------------------------------------------------------------------------

  function Le(x: nat, n: nat): (s: seq<Byte>)
    ensures |s| == n
  {
    if n == 0 then [] else [x % 256] + Le(x / 256, n - 1)
  }

  function FromLe(s: seq<Byte>): nat {
    if s == [] then 0 else s[0] + 256 * FromLe(s[1..])
  }

  lemma {:induction false} FromLeBound(s: seq<Byte>)
    ensures FromLe(s) < Pow256(|s|)
  {
    if s != [] {
      FromLeBound(s[1..]);
    }
  }

  lemma {:induction false} LeRoundTrip(x: nat, n: nat)
    requires x < Pow256(n)
    ensures FromLe(Le(x, n)) == x
  {
    if n > 0 {
      LeRoundTrip(x / 256, n - 1);
    }
  }

  /** Bytes are the encoding of the number they decode to. */
  lemma {:induction false} LeUnique(s: seq<Byte>)
    ensures Le(FromLe(s), |s|) == s
  {
    if s != [] {
      LeUnique(s[1..]);
      assert FromLe(s) % 256 == s[0] && FromLe(s) / 256 == FromLe(s[1..]);
    }
  }

  // ---- Two and four bytes ---------------------------------------------------------------------------------------

  lemma WordSizes()
    ensures Pow256(2) == U16 && Pow256(4) == U32
  {
  }

  function FromBe16(s: seq<Byte>): Word16
    requires |s| == 2
  {
    WordSizes();
    FromBeBound(s);
    FromBe(s)
  }

  function FromBe32(s: seq<Byte>): Word32
    requires |s| == 4
  {
    WordSizes();
    FromBeBound(s);
    FromBe(s)
  }

  function FromLe32(s: seq<Byte>): Word32
    requires |s| == 4
  {
    WordSizes();
    FromLeBound(s);
    FromLe(s)
  }

  function Be16(x: Word16): (s: seq<Byte>)
    ensures |s| == 2 && FromBe16(s) == x
  {
    WordSizes();
    BeRoundTrip(x, 2);
    Be(x, 2)
  }

  function Be32(x: Word32): (s: seq<Byte>)
    ensures |s| == 4 && FromBe32(s) == x
  {
    WordSizes();
    BeRoundTrip(x, 4);
    Be(x, 4)
  }

  function Le32(x: Word32): (s: seq<Byte>)
    ensures |s| == 4 && FromLe32(s) == x
  {
    WordSizes();
    LeRoundTrip(x, 4);
    Le(x, 4)
  }

  lemma Le32Unique(s: seq<Byte>)
    requires |s| == 4
    ensures Le32(FromLe32(s)) == s
  {
    LeUnique(s);
  }
}
