/**
 The streaming front end of the SHA-256 engine. The compression function is a parameter.
 */
module Sha {
  import opened Arith
  import opened Bytes
  import opened Sequences
  import opened Wrappers

  const MAX_COUNT: nat := 512 * 1024 * 1024

  // ---- SHA-256 as FIPS 180-4 defines it -------------------------------------------------------------------------

  datatype Hash<!S> = Hash(init: S, compress: (S, seq<Byte>) -> S, output: S -> seq<Byte>)

  /** Section 6.2.2: one block after the other. */
  function Fold<S>(hash: Hash<S>, state: S, bytes: seq<Byte>): S
    decreases |bytes|
  {
    if |bytes| < 64 then state else Fold(hash, hash.compress(state, bytes[..64]), bytes[64..])
  }

  /** As few zeros as bring `n` bytes to eight bytes before the end of a block. */
  function PadZeros(n: nat): (z: seq<Byte>)
    ensures (n + |z| + 8) % 64 == 0 && |z| < 64
  {
    seq((56 - n) % 64, _ => 0)
  }

  /** Section 5.1.1: a one bit, zeros, and the length in bits as a 64-bit number, up to the end of a block. */
  function Padding(len: nat): (p: seq<Byte>)
    requires len <= MAX_COUNT
    ensures (len + |p|) % 64 == 0
  {
    var z, bits := PadZeros(len + 1), Be(8 * len, 8);
    assert len + |[0x80] + z + bits| == len + 1 + |z| + 8;
    [0x80] + z + bits
  }

  function Digest<S>(hash: Hash<S>, message: seq<Byte>): seq<Byte>
    requires |message| <= MAX_COUNT
  {
    hash.output(Fold(hash, hash.init, message + Padding(|message|)))
  }

  lemma {:induction false} FoldAppend<S>(hash: Hash<S>, state: S, a: seq<Byte>, b: seq<Byte>)
    requires |a| % 64 == 0
    ensures Fold(hash, state, a + b) == Fold(hash, Fold(hash, state, a), b)
    decreases |a|
  {
    if a == [] {
      assert a + b == b;
    } else {
      assert (a + b)[..64] == a[..64] && (a + b)[64..] == a[64..] + b;
      FoldAppend(hash, hash.compress(state, a[..64]), a[64..], b);
    }
  }

  function Reverse(s: seq<Byte>): (r: seq<Byte>)
    ensures |r| == |s|
  {
    seq(|s|, i requires 0 <= i < |s| => s[|s| - 1 - i])
  }

  function Concat(parts: seq<seq<Byte>>): seq<Byte> {
    if parts == [] then [] else Concat(parts[..|parts| - 1]) + parts[|parts| - 1]
  }

  // ---- The engine -----------------------------------------------------------------------------------------------

  datatype Cmd = Cmd(init: bool, term: bool, data: seq<Byte>)

  /** The commands of one message before its last: whole blocks, and `init` on the first one only. */
  predicate WellFormed(cmds: seq<Cmd>) {
    forall i :: 0 <= i < |cmds| ==>
      cmds[i].init == (i == 0) && !cmds[i].term && |cmds[i].data| > 0 && |cmds[i].data| % 64 == 0
  }

  function CmdBytes(cmds: seq<Cmd>): seq<Byte> {
    if cmds == [] then [] else CmdBytes(cmds[..|cmds| - 1]) + cmds[|cmds| - 1].data
  }

  lemma {:induction false} NextCommand(cmds: seq<Cmd>, cmd: Cmd)
    requires WellFormed(cmds) && cmd.init == (cmds == []) && !cmd.term && |cmd.data| > 0 && |cmd.data| % 64 == 0
    ensures WellFormed(cmds + [cmd]) && CmdBytes(cmds + [cmd]) == CmdBytes(cmds) + cmd.data
  {
  }

  /** The hash channel of the co-processor. It takes whole blocks until the command that terminates the message. */
  class Engine<S> {
    const hash: Hash<S>
    var state: S
    var total: nat
    ghost var log: seq<Cmd>

    constructor (hash: Hash<S>)
      ensures this.hash == hash && log == []
    {
      this.hash, state, total, log := hash, hash.init, 0, [];
    }

    /** What the engine makes of the last bytes of a message of `len` bytes. */
    function Final(from: S, last: seq<Byte>, len: nat): seq<Byte>
      requires len <= MAX_COUNT
    {
      Reverse(hash.output(Fold(hash, from, last + Padding(len))))
    }

    method Execute(cmd: Cmd) returns (out: seq<Byte>)
      requires cmd.term || (|cmd.data| > 0 && |cmd.data| % 64 == 0)
      requires cmd.init || total % 64 == 0
      requires (if cmd.init then 0 else total) + |cmd.data| <= MAX_COUNT
      modifies this
      ensures log == old(log) + [cmd]
      ensures !cmd.term ==> total == (if cmd.init then 0 else old(total)) + |cmd.data|
      ensures !cmd.term ==> state == Fold(hash, if cmd.init then hash.init else old(state), cmd.data)
      ensures cmd.term && cmd.init ==> out == Final(hash.init, cmd.data, |cmd.data|)
      ensures cmd.term && !cmd.init ==> out == Final(old(state), cmd.data, old(total) + |cmd.data|)
    {
      out := [];
      var from := if cmd.init then hash.init else state;
      var len := if cmd.init then |cmd.data| else total + |cmd.data|;
      if cmd.term {
        out := Final(from, cmd.data, len);
      } else {
        state, total := Fold(hash, from, cmd.data), len;
      }
      log := log + [cmd];
    }
  }

  /** The commands issued for a message are well formed and the engine has folded their bytes. */
  ghost predicate InSession<S>(hash: Hash<S>, cmds: seq<Cmd>, first: bool, bytes: seq<Byte>, state: S, total: nat) {
    && WellFormed(cmds) && CmdBytes(cmds) == bytes && |bytes| % 64 == 0
    && (first <==> cmds == [])
    && (cmds == [] || (state == Fold(hash, hash.init, bytes) && total == |bytes|))
  }

  lemma WholeBlocks(a: seq<Byte>, b: seq<Byte>)
    requires |a| % 64 == 0 && |b| % 64 == 0
    ensures |a + b| % 64 == 0
  {
  }

  lemma {:induction false} SessionGoesOn<S>(hash: Hash<S>, cmds: seq<Cmd>, first: bool, bytes: seq<Byte>, state: S,
                                            total: nat,
                         blocks: seq<Byte>)
    requires InSession(hash, cmds, first, bytes, state, total) && |blocks| > 0 && |blocks| % 64 == 0
    ensures InSession(hash, cmds + [Cmd(first, false, blocks)], false, bytes + blocks,
                      Fold(hash, if first then hash.init else state, blocks),
                      if first then |blocks| else total + |blocks|)
  {
    NextCommand(cmds, Cmd(first, false, blocks));
    WholeBlocks(bytes, blocks);
    if first {
      assert cmds == [] && bytes == [] && bytes + blocks == blocks;
    } else {
      FoldAppend(hash, hash.init, bytes, blocks);
    }
  }

  // ---- The front end --------------------------------------------------------------------------------------------

  function RoundDown(n: nat, m: nat): (r: nat)
    requires m > 0
    ensures r <= n < r + m && r % m == 0
  {
    ModUnique(n - n % m, m, n / m, 0);
    n - n % m
  }

  /** A vector of at most 64 bytes refuses what does not fit; its caller ignores that. */
  function ExtendFromSlice(buffer: seq<Byte>, slice: seq<Byte>): seq<Byte> {
    if |buffer| + |slice| <= 64 then buffer + slice else buffer
  }

  lemma RegroupSplit(a: seq<Byte>, b: seq<Byte>, c: seq<Byte>, k: nat)
    requires k <= |c|
    ensures (a + (b + c[..k])) + c[k..] == (a + b) + c
  {
  }

  lemma {:induction false} FoldThree<S>(hash: Hash<S>, state: S, a: seq<Byte>, b: seq<Byte>, c: seq<Byte>)
    requires |a| % 64 == 0
    ensures Fold(hash, Fold(hash, state, a), b + c) == Fold(hash, state, (a + b) + c)
  {
    FoldAppend(hash, state, a, b + c);
    assert a + (b + c) == (a + b) + c;
  }

  lemma ReverseTwice(s: seq<Byte>)
    ensures Reverse(Reverse(s)) == s
  {
  }

  lemma {:induction false} FinalWith<S>(hash: Hash<S>, done: seq<Byte>, last: seq<Byte>, p: seq<Byte>)
    requires |done| % 64 == 0
    ensures Reverse(Reverse(hash.output(Fold(hash, Fold(hash, hash.init, done), last + p))))
            == hash.output(Fold(hash, hash.init, (done + last) + p))
  {
    FoldThree(hash, hash.init, done, last, p);
    ReverseTwice(hash.output(Fold(hash, hash.init, (done + last) + p)));
  }

  lemma {:induction false} FinalIsDigest<S>(engine: Engine<S>, done: seq<Byte>, last: seq<Byte>)
    requires |done| % 64 == 0 && |done| + |last| <= MAX_COUNT
    ensures Reverse(engine.Final(Fold(engine.hash, engine.hash.init, done), last, |done + last|))
            == Digest(engine.hash, done + last)
  {
    FinalWith(engine.hash, done, last, Padding(|done + last|));
  }

  class Sha256<S> {
    const engine: Engine<S>
    var nextIsFirst: bool
    var buffer: seq<Byte>
    var count: nat
    /** The bytes of the message that went to the engine. */
    ghost var processed: seq<Byte>
    /** Where the commands of this message begin in the log of the engine. */
    ghost var base: nat

    /** The message so far. */
    ghost function Message(): seq<Byte>
      reads this
    {
      processed + buffer
    }

    ghost predicate Issued()
      reads this, engine
    {
      && base <= |engine.log|
      && InSession(engine.hash, engine.log[base..], nextIsFirst, processed, engine.state, engine.total)
    }

    ghost predicate Valid()
      reads this, engine
    {
      |buffer| < 64 && |processed| + |buffer| <= count <= MAX_COUNT && Issued()
    }

    constructor (engine: Engine<S>)
      ensures Valid() && this.engine == engine && Message() == [] && count == 0
    {
      this.engine, nextIsFirst, buffer, count := engine, true, [], 0;
      processed, base := [], |engine.log|;
    }

    method ProcessBlocks(blocks: seq<Byte>)
      requires |blocks| > 0 && |blocks| % 64 == 0 && |processed| + |blocks| <= MAX_COUNT && Issued()
      modifies this`nextIsFirst, this`processed, engine
      ensures Issued() && processed == old(processed) + blocks && old(engine.log) <= engine.log
    {
      SessionGoesOn(engine.hash, engine.log[base..], nextIsFirst, processed, engine.state, engine.total, blocks);
      var out := engine.Execute(Cmd(nextIsFirst, false, blocks));
      nextIsFirst := false;
      processed := processed + blocks;
      assert engine.log[base..] == old(engine.log[base..]) + [Cmd(old(nextIsFirst), false, blocks)];
    }

    method ProcessAndPush(input: seq<Byte>)
      requires buffer == [] && |processed| + |input| <= MAX_COUNT && Issued()
      modifies this`nextIsFirst, this`buffer, this`processed, engine
      ensures Issued() && |buffer| < 64 && processed + buffer == old(processed + buffer) + input
      ensures old(engine.log) <= engine.log
    {
      var leftover := input;
      if |input| >= 64 {
        var n := RoundDown(|input|, 64);
        RegroupSplit(processed, [], input, n);
        ProcessBlocks(input[..n]);
        leftover := input[n..];
      }
      buffer := ExtendFromSlice(buffer, leftover);
    }

    /** Completes the buffered block and sends it. */
    method ProcessFull(head: seq<Byte>)
      requires |buffer| + |head| == 64 && |processed| + 64 <= MAX_COUNT && Issued()
      modifies this`nextIsFirst, this`buffer, this`processed, engine
      ensures Issued() && buffer == [] && processed == old(processed) + (old(buffer) + head)
      ensures old(engine.log) <= engine.log
    {
      buffer := ExtendFromSlice(buffer, head);
      ProcessBlocks(buffer);
      buffer := [];
    }

    method PushAndProcess(input: seq<Byte>)
      requires 0 < |buffer| < 64 <= |buffer| + |input| && |processed| + |buffer| + |input| <= MAX_COUNT && Issued()
      modifies this`nextIsFirst, this`buffer, this`processed, engine
      ensures Issued() && |buffer| < 64 && processed + buffer == old(processed + buffer) + input
      ensures old(engine.log) <= engine.log
    {
      var head, tail := input[..64 - |buffer|], input[64 - |buffer|..];
      RegroupSplit(processed, buffer, input, |head|);
      ProcessFull(head);
      assert processed + buffer == processed;
      ProcessAndPush(tail);
    }

    /** Panics when the total exceeds the capacity; otherwise the message grows by the input. */
    method InputSlice(input: seq<Byte>) returns (ok: bool)
      requires Valid()
      modifies this, engine
      ensures ok <==> input == [] || old(count) + |input| <= MAX_COUNT
      ensures Valid()
      ensures Message() == if ok then old(Message()) + input else old(Message())
      ensures count == if ok then old(count) + |input| else old(count)
      ensures base == old(base) && old(engine.log) <= engine.log
    {
      if input == [] {
        return true;
      }
      if count + |input| > MAX_COUNT {
        return false;
      }
      count := count + |input|;
      if buffer == [] {
        ProcessAndPush(input);
      } else if |buffer| + |input| < 64 {
        buffer := ExtendFromSlice(buffer, input);
      } else {
        PushAndProcess(input);
      }
      ok := true;
    }

    /** The digest of the message: the last command holds less than a block and terminates the message. */
    method FixedResult() returns (digest: seq<Byte>)
      requires Valid()
      modifies engine
      ensures digest == Digest(engine.hash, Message())
      ensures engine.log == old(engine.log) + [Cmd(nextIsFirst, true, buffer)]
    {
      FinalIsDigest(engine, processed, buffer);
      if nextIsFirst {
        assert processed == [];
      }
      var output := engine.Execute(Cmd(nextIsFirst, true, buffer));
      digest := Reverse(output);
    }

    /** Forgets the message, but not how many bytes went in. */
    method Reset()
      requires Valid()
      modifies this
      ensures Valid() && Message() == [] && count == old(count) && base == |engine.log|
    {
      buffer := [];
      nextIsFirst := true;
      processed, base := [], |engine.log|;
    }
  }

  // ---- Whole messages -------------------------------------------------------------------------------------------

  lemma ConcatNext(chunks: seq<seq<Byte>>, i: nat)
    requires i < |chunks|
    ensures Concat(chunks[..i + 1]) == Concat(chunks[..i]) + chunks[i]
  {
    assert chunks[..i + 1][..i] == chunks[..i];
  }

  lemma {:induction false} ConcatGrows(chunks: seq<seq<Byte>>, i: nat)
    requires i <= |chunks|
    ensures |Concat(chunks[..i])| <= |Concat(chunks)|
    decreases |chunks| - i
  {
    if i < |chunks| {
      ConcatNext(chunks, i);
      ConcatGrows(chunks, i + 1);
    } else {
      assert chunks[..i] == chunks;
    }
  }

  method Feed<S>(sha: Sha256<S>, chunks: seq<seq<Byte>>) returns (ok: bool)
    requires sha.Valid()
    modifies sha, sha.engine
    ensures ok <==> old(sha.count) + |Concat(chunks)| <= MAX_COUNT
    ensures ok ==> sha.Valid() && sha.Message() == old(sha.Message()) + Concat(chunks)
                   && sha.count == old(sha.count) + |Concat(chunks)|
  {
    for i := 0 to |chunks|
      invariant sha.Valid()
      invariant sha.Message() == old(sha.Message()) + Concat(chunks[..i])
      invariant sha.count == old(sha.count) + |Concat(chunks[..i])|
    {
      ConcatNext(chunks, i);
      ConcatGrows(chunks, i + 1);
      Associative(old(sha.Message()), Concat(chunks[..i]), chunks[i]);
      ok := sha.InputSlice(chunks[i]);
      if !ok {
        return;
      }
    }
    assert chunks[..|chunks|] == chunks;
    ok := true;
  }

  /** However the message is split, the digest is that of the whole, if it fits the engine. */
  method HashChunks<S>(hash: Hash<S>, chunks: seq<seq<Byte>>) returns (digest: Option<seq<Byte>>)
    ensures digest == if |Concat(chunks)| <= MAX_COUNT then Some(Digest(hash, Concat(chunks))) else None
  {
    var engine := new Engine(hash);
    var sha := new Sha256(engine);
    var ok := Feed(sha, chunks);
    if !ok {
      return None;
    }
    assert [] + Concat(chunks) == Concat(chunks);
    var d := sha.FixedResult();
    digest := Some(d);
  }

  /**
   After `reset` the digest is that of the new message alone, exactly when both messages together fit the engine: the
   count goes on.
   */
  method HashAfterReset<S>(hash: Hash<S>, before: seq<seq<Byte>>, after: seq<seq<Byte>>)
    returns (digest: Option<seq<Byte>>)
    ensures digest == if |Concat(before)| + |Concat(after)| <= MAX_COUNT then Some(Digest(hash, Concat(after)))
                      else None
  {
    var engine := new Engine(hash);
    var sha := new Sha256(engine);
    var ok := Feed(sha, before);
    if !ok {
      return None;
    }
    sha.Reset();
    ok := Feed(sha, after);
    if !ok {
      return None;
    }
    assert [] + Concat(after) == Concat(after);
    var d := sha.FixedResult();
    digest := Some(d);
  }
}
