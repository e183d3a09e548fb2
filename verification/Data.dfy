/** The workload's data: a SplitMix64 stream fills a batch, each stage rewrites it with a
    running accumulator, and FNV-1a summarises it. The array methods work in place and are
    proved against the sequence functions the pipeline proofs use. */
module Data {
  type byte = x: nat | x < 0x100

  type Word64 = x: nat | x < 0x1_0000_0000_0000_0000

  function Pow2(n: nat): nat {
    if n == 0 then 1 else 2 * Pow2(n - 1)
  }

  /** Exclusive or, from the lowest bit up. */
  function Xor(a: nat, b: nat): nat
    decreases a + b
  {
    if a == 0 && b == 0 then 0 else (a + b) % 2 + 2 * Xor(a / 2, b / 2)
  }

  lemma {:induction false} XorBelow(a: nat, b: nat, bits: nat)
    requires a < Pow2(bits) && b < Pow2(bits)
    ensures Xor(a, b) < Pow2(bits)
  {
    if bits > 0 {
      XorBelow(a / 2, b / 2, bits - 1);
    }
  }

  function XorByte(a: byte, b: byte): byte {
    PowersOfTwo();
    XorBelow(a, b, 8);
    Xor(a, b)
  }

  function XorWord(a: Word64, b: Word64): Word64 {
    PowersOfTwo();
    XorBelow(a, b, 64);
    Xor(a, b)
  }

  lemma {:induction false} PowerOfSum(a: nat, b: nat)
    ensures Pow2(a + b) == Pow2(a) * Pow2(b)
  {
    if a > 0 {
      PowerOfSum(a - 1, b);
    }
  }

  lemma PowersOfTwo()
    ensures Pow2(8) == 0x100 && Pow2(64) == 0x1_0000_0000_0000_0000
  {
    assert Pow2(8) == 0x100;
    PowerOfSum(8, 8);
    PowerOfSum(16, 16);
    PowerOfSum(32, 32);
  }

  /** Wrapping product of two words. */
  function Times(a: nat, b: nat): Word64 {
    (a * b) % 0x1_0000_0000_0000_0000
  }

  /** SplitMix64's output mix of one state. */
  function Mix(state: Word64): Word64 {
    var z := Times(XorWord(state, state / 0x4000_0000), 0xBF58_476D_1CE4_E5B9);
    var z' := Times(XorWord(z, z / 0x800_0000), 0x94D0_49BB_1331_11EB);
    XorWord(z', z' / 0x8000_0000)
  }

  function NextState(state: Word64): Word64 {
    (state + 0x9E37_79B9_7F4A_7C15) % 0x1_0000_0000_0000_0000
  }

  /** The state after `k` draws. */
  function StateAfter(state: Word64, k: nat): Word64 {
    if k == 0 then state else NextState(StateAfter(state, k - 1))
  }

  /** Byte `k` of a word in little-endian order. */
  function ByteOf(word: nat, k: nat): byte {
    if k == 0 then word % 0x100 else ByteOf(word / 0x100, k - 1)
  }

  /** What byte `i` of a filled buffer is: byte `i % 8` of the `i / 8`-th draw. */
  function FillByte(seed: Word64, i: nat): byte {
    ByteOf(Mix(StateAfter(seed, i / 8 + 1)), i % 8)
  }

  function Filled(seed: Word64, n: nat): (s: seq<byte>)
    ensures |s| == n
  {
    seq(n, i requires 0 <= i < n => FillByte(seed, i))
  }

  class SplitMix64 {
    var state: Word64

    constructor (seed: Word64)
      ensures state == seed
    {
      state := seed;
    }

    method NextU64() returns (r: Word64)
      modifies this
      ensures state == NextState(old(state))
      ensures r == Mix(state)
    {
      state := NextState(state);
      r := Mix(state);
    }

    /** Overwrites every byte of `buf`, whatever it held. */
    method Fill(buf: array<byte>)
      modifies this, buf
      ensures buf[..] == Filled(old(state), buf.Length)
    {
      ghost var seed := state;
      var at, draws := 0, 0;
      while at < buf.Length
        invariant 0 <= at <= buf.Length && (at == 8 * draws || at == buf.Length)
        invariant state == StateAfter(seed, draws)
        invariant forall i :: 0 <= i < at ==> buf[i] == FillByte(seed, i)
      {
        var word := NextU64();
        draws := draws + 1;
        var end := if at + 8 <= buf.Length then at + 8 else buf.Length;
        var k := 0;
        while at + k < end
          invariant 0 <= k <= end - at
          invariant state == StateAfter(seed, draws)
          invariant forall i :: 0 <= i < at + k ==> buf[i] == FillByte(seed, i)
        {
          assert (at + k) / 8 + 1 == draws && (at + k) % 8 == k;
          buf[at + k] := ByteOf(word, k);
          k := k + 1;
        }
        at := end;
      }
    }
  }

  /** The seed of batch `batch`'s stream. */
  function BatchSeed(seed: Word64, batch: nat): Word64 {
    XorWord(seed, Times(batch, 0xD6E8_FEB8_6659_FD93))
  }

  /** Batch `batch`'s input bytes. */
  function BatchBytes(seed: Word64, batch: nat, n: nat): (s: seq<byte>)
    ensures |s| == n
  {
    Filled(BatchSeed(seed, batch), n)
  }

  method FillBatch(seed: Word64, batch: nat, buf: array<byte>)
    modifies buf
    ensures buf[..] == BatchBytes(seed, batch, buf.Length)
  {
    var rng := new SplitMix64(BatchSeed(seed, batch));
    rng.Fill(buf);
  }

  /** A stage's key; the stage number is truncated to a byte. */
  function StageKey(stage: nat): byte {
    (stage % 0x100 * 0x9D + 0x3B) % 0x100
  }

  /** Rotates the accumulator left by three bits and mixes the next byte in. */
  function Accumulate(acc: byte, b: byte): byte {
    XorByte(acc * 8 % 0x100 + acc / 0x20, b)
  }

  function AddByte(a: byte, b: byte): byte {
    (a + b) % 0x100
  }

  /** The accumulator after the whole of `s`. */
  function Accumulated(key: byte, s: seq<byte>): byte {
    if s == [] then key else Accumulate(Accumulated(key, s[..|s| - 1]), s[|s| - 1])
  }

  lemma AccumulateNext(key: byte, s: seq<byte>, i: nat)
    requires i < |s|
    ensures Accumulated(key, s[..i + 1]) == Accumulate(Accumulated(key, s[..i]), s[i])
  {
    assert s[..i + 1][..i] == s[..i];
  }

  /** What a stage writes over byte `i`: it depends on bytes `0..i` of the input. */
  function OutByte(key: byte, s: seq<byte>, i: nat): byte
    requires i < |s|
  {
    AddByte(Accumulated(key, s[..i + 1]), key)
  }

  function Transformed(stage: nat, s: seq<byte>): (t: seq<byte>)
    ensures |t| == |s|
  {
    seq(|s|, i requires 0 <= i < |s| => OutByte(StageKey(stage), s, i))
  }

  method Transform(stage: nat, buf: array<byte>)
    modifies buf
    ensures buf[..] == Transformed(stage, old(buf[..]))
  {
    ghost var input := buf[..];
    var key := StageKey(stage);
    var acc := key;
    for i := 0 to buf.Length
      invariant acc == Accumulated(key, input[..i])
      invariant forall k :: 0 <= k < i ==> buf[k] == OutByte(key, input, k)
      invariant forall k :: i <= k < buf.Length ==> buf[k] == input[k]
    {
      AccumulateNext(key, input, i);
      acc := Accumulate(acc, buf[i]);
      buf[i] := AddByte(acc, key);
    }
  }

  const FNV_OFFSET: Word64 := 0xCBF2_9CE4_8422_2325

  function FnvStep(h: Word64, b: byte): Word64 {
    Times(XorWord(h, b), 0x0000_0100_0000_01B3)
  }

  function Checksum(s: seq<byte>): Word64 {
    if s == [] then FNV_OFFSET else FnvStep(Checksum(s[..|s| - 1]), s[|s| - 1])
  }

  /** A batch's bytes once the first `k` stages have rewritten them. */
  function WorkedBytes(seed: Word64, batch: nat, n: nat, k: nat): (s: seq<byte>)
    ensures |s| == n
  {
    if k == 0 then BatchBytes(seed, batch, n) else Transformed(k - 1, WorkedBytes(seed, batch, n, k - 1))
  }

  function ReferenceChecksum(seed: Word64, batch: nat, n: nat, stages: nat): Word64 {
    Checksum(WorkedBytes(seed, batch, n, stages))
  }

  /** The direct computation of a batch's checksum, with no pipeline. */
  method ComputeReferenceChecksum(seed: Word64, batch: nat, n: nat, stages: nat) returns (sum: Word64)
    ensures sum == ReferenceChecksum(seed, batch, n, stages)
  {
    var buf := new byte[n](_ => 0);
    FillBatch(seed, batch, buf);
    for stage := 0 to stages
      invariant buf[..] == WorkedBytes(seed, batch, n, stage)
    {
      Transform(stage, buf);
    }
    sum := ComputeChecksum(buf[..]);
  }

  method ComputeChecksum(s: seq<byte>) returns (h: Word64)
    ensures h == Checksum(s)
  {
    h := FNV_OFFSET;
    for i := 0 to |s|
      invariant h == Checksum(s[..i])
    {
      assert s[..i + 1][..i] == s[..i];
      h := FnvStep(h, s[i]);
    }
    assert s[..|s|] == s;
  }
}
