/** Parsers over bytes, with their primitives. What is left to parse is given by a position in the input. */
module Parsing {
  import opened Bytes

  /** A parser moves on to a later position and yields a value, fails, or panics. */
  datatype Parsed<+T> = Ok(pos: nat, value: T) | Fail | Panic

  /** How a parser that cannot go on ends, as a result of another type. */
  function Failed<T, U>(p: Parsed<T>): Parsed<U>
    requires !p.Ok?
  {
    if p.Fail? then Fail else Panic
  }

  predicate Tag(s: seq<Byte>, pos: nat, tag: Byte) {
    pos < |s| && s[pos] == tag
  }

  function TakeBe16(s: seq<Byte>, pos: nat): Parsed<Word16> {
    if pos + 2 <= |s| then Ok(pos + 2, FromBe16(s[pos..pos + 2])) else Fail
  }

  function TakeBe32(s: seq<Byte>, pos: nat): Parsed<Word32> {
    if pos + 4 <= |s| then Ok(pos + 4, FromBe32(s[pos..pos + 4])) else Fail
  }

  /** The input goes on with these bytes. */
  predicate At(s: seq<Byte>, pos: nat, bytes: seq<Byte>) {
    pos + |bytes| <= |s| && s[pos..pos + |bytes|] == bytes
  }

  lemma AtSplit(s: seq<Byte>, pos: nat, a: seq<Byte>, b: seq<Byte>)
    requires At(s, pos, a + b)
    ensures At(s, pos, a) && At(s, pos + |a|, b)
  {
    assert s[pos..pos + |a|] == (a + b)[..|a|];
    assert s[pos + |a|..pos + |a| + |b|] == (a + b)[|a|..];
  }

  lemma AtFirst(s: seq<Byte>, pos: nat, b: Byte)
    requires At(s, pos, [b])
    ensures s[pos] == b
  {
  }
}
