/** What the data functions mean: exclusive or bit by bit, and that nothing on the way from a batch number
    to its bytes, and from the bytes to their checksum, forgets anything. */
module DataMeans {
  import opened Data

  // ---- exclusive or ----

  function Bit(a: nat, i: nat): nat {
    if i == 0 then a % 2 else Bit(a / 2, i - 1)
  }

  lemma LowAndRest(low: nat, rest: nat)
    requires low < 2
    ensures (low + 2 * rest) % 2 == low && (low + 2 * rest) / 2 == rest
  {
  }

  lemma {:induction false} XorParts(a: nat, b: nat)
    ensures Xor(a, b) % 2 == (a + b) % 2 && Xor(a, b) / 2 == Xor(a / 2, b / 2)
  {
    if a > 0 || b > 0 {
      LowAndRest((a + b) % 2, Xor(a / 2, b / 2));
    }
  }

  lemma LowBits(a: nat, b: nat)
    ensures (a + b) % 2 == if a % 2 == b % 2 then 0 else 1
  {
  }

  /** Bit `i` of the exclusive or is set exactly when the two bits differ. */
  lemma {:induction false} XorBit(a: nat, b: nat, i: nat)
    ensures Bit(Xor(a, b), i) == if Bit(a, i) == Bit(b, i) then 0 else 1
  {
    XorParts(a, b);
    if i == 0 {
      LowBits(a, b);
    } else {
      XorBit(a / 2, b / 2, i - 1);
    }
  }

  lemma {:induction false} XorCommutes(a: nat, b: nat)
    ensures Xor(a, b) == Xor(b, a)
    decreases a + b
  {
    if a > 0 || b > 0 {
      XorCommutes(a / 2, b / 2);
    }
  }

  /** Either argument can be told from the other and the result. */
  lemma {:induction false} XorInjective(a: nat, b: nat, c: nat)
    requires Xor(a, c) == Xor(b, c)
    ensures a == b
    decreases a + b + c
  {
    if a + b + c > 0 {
      XorParts(a, c);
      XorParts(b, c);
      LowBits(a, c);
      LowBits(b, c);
      XorInjective(a / 2, b / 2, c / 2);
    }
  }

  // ---- shifts ----

  function Shr(a: nat, i: nat): nat {
    if i == 0 then a else Shr(a / 2, i - 1)
  }

  lemma {:induction false} ShrOfXor(a: nat, b: nat, i: nat)
    ensures Shr(Xor(a, b), i) == Xor(Shr(a, i), Shr(b, i))
  {
    if i > 0 {
      XorParts(a, b);
      ShrOfXor(a / 2, b / 2, i - 1);
    }
  }

  lemma {:induction false} ShrTwice(a: nat, i: nat, j: nat)
    ensures Shr(Shr(a, i), j) == Shr(a, i + j)
  {
    if i > 0 {
      ShrTwice(a / 2, i - 1, j);
    }
  }

  lemma {:induction false} ShrVanishes(a: nat, bits: nat, i: nat)
    requires a < Pow2(bits) && bits <= i
    ensures Shr(a, i) == 0
  {
    if i > 0 {
      ShrVanishes(a / 2, if bits > 0 then bits - 1 else 0, i - 1);
    }
  }

  /** Mixing a word with itself shifted down loses nothing: the bits can be told from the top down. */
  lemma {:induction false} XorShiftInjective(a: nat, b: nat, bits: nat, k: nat, i: nat)
    requires 0 < k && a < Pow2(bits) && b < Pow2(bits) && Xor(a, Shr(a, k)) == Xor(b, Shr(b, k))
    ensures Shr(a, i) == Shr(b, i)
    decreases bits - i
  {
    if i >= bits {
      ShrVanishes(a, bits, i);
      ShrVanishes(b, bits, i);
    } else {
      XorShiftInjective(a, b, bits, k, i + k);
      ShrOfXor(a, Shr(a, k), i);
      ShrOfXor(b, Shr(b, k), i);
      ShrTwice(a, k, i);
      ShrTwice(b, k, i);
      XorInjective(Shr(a, i), Shr(b, i), Shr(a, i + k));
    }
  }

  lemma HalfThenDivide(a: nat, m: nat)
    requires m > 0
    ensures a / 2 / m == a / (2 * m)
  {
    var q, r := a / 2 / m, a / 2 % m;
    assert a / 2 == q * m + r;
    assert a == q * (2 * m) + (2 * r + a % 2);
    QuotientIs(a, 2 * m, q, 2 * r + a % 2);
  }

  lemma QuotientIs(a: nat, m: nat, q: nat, r: nat)
    requires r < m && a == q * m + r
    ensures a / m == q
  {
    var d := a / m - q;
    assert d * m == r - a % m;
    assert d > 0 ==> d * m >= m;
    assert d < 0 ==> d * m <= 0 - m;
  }

  lemma {:induction false} PowPositive(n: nat)
    ensures Pow2(n) > 0
  {
    if n > 0 {
      PowPositive(n - 1);
    }
  }

  /** Shifting down by `i` is dividing by `2^i`. */
  lemma {:induction false} ShrIsQuotient(a: nat, i: nat)
    ensures Pow2(i) > 0 && Shr(a, i) == a / Pow2(i)
  {
    PowPositive(i);
    if i > 0 {
      PowPositive(i - 1);
      ShrIsQuotient(a / 2, i - 1);
      HalfThenDivide(a, Pow2(i - 1));
    }
  }

  // ---- multiplying by an odd constant ----

  const WORDS: nat := 0x1_0000_0000_0000_0000

  lemma RemainderIs(a: nat, m: nat, k: int, r: nat)
    requires r < m && a == k * m + r
    ensures a % m == r
  {
    assert k < 0 ==> k * m <= 0 - m;
    QuotientIs(a, m, k, r);
  }

  lemma Regroup(a: int, p: int, q: int, t: int, k: int, n: int)
    requires a * p == k * WORDS + t && p * q == n * WORDS + 1
    ensures t * q == (a * n - k * q) * WORDS + a
  {
    calc {
      t * q;
      (a * p - k * WORDS) * q;
      a * p * q - k * WORDS * q;
      a * (p * q) - k * WORDS * q;
      a * (n * WORDS + 1) - k * WORDS * q;
      a * n * WORDS + a - k * q * WORDS;
      (a * n - k * q) * WORDS + a;
    }
  }

  /** A factor with an inverse can be undone. */
  lemma TimesUndone(a: Word64, p: nat, q: nat)
    requires p * q % WORDS == 1
    ensures Times(Times(a, p), q) == a
  {
    var t, k, n := Times(a, p), a * p / WORDS, p * q / WORDS;
    assert a * p == k * WORDS + t;
    assert p * q == n * WORDS + 1;
    Regroup(a, p, q, t, k, n);
    RemainderIs(t * q, WORDS, a * n - k * q, a);
  }

  lemma TimesInjective(a: Word64, b: Word64, p: nat, q: nat)
    requires p * q % WORDS == 1 && Times(a, p) == Times(b, p)
    ensures a == b
  {
    TimesUndone(a, p, q);
    TimesUndone(b, p, q);
  }

  // ---- the checksum ----

  const FNV_PRIME: nat := 0x0000_0100_0000_01B3
  const FNV_INVERSE: nat := 0xCE96_5057_AFF6_957B

  /** One step of the checksum forgets neither the state nor the byte. */
  lemma StepForgetsNothing(g: Word64, h: Word64, a: byte, b: byte)
    requires FnvStep(g, a) == FnvStep(h, b)
    ensures a == b ==> g == h
    ensures g == h ==> a == b
  {
    TimesInjective(XorWord(g, a), XorWord(h, b), FNV_PRIME, FNV_INVERSE);
    if a == b {
      XorInjective(g, h, a);
    }
    if g == h {
      XorCommutes(g, a);
      XorCommutes(h, b);
      XorInjective(a, b, g);
    }
  }

  lemma LastStep(s: seq<byte>, b: byte)
    ensures Checksum(s + [b]) == FnvStep(Checksum(s), b)
  {
    assert (s + [b])[..|s|] == s;
  }

  lemma LastByteShows(s: seq<byte>, a: byte, b: byte)
    requires a != b
    ensures Checksum(s + [a]) != Checksum(s + [b])
  {
    LastStep(s, a);
    LastStep(s, b);
    if Checksum(s + [a]) == Checksum(s + [b]) {
      StepForgetsNothing(Checksum(s), Checksum(s), a, b);
    }
  }

  /** Once checksums differ, the same bytes after them never make them equal. */
  lemma {:induction false} ChecksumsStayApart(s: seq<byte>, t: seq<byte>, rest: seq<byte>)
    requires Checksum(s) != Checksum(t)
    ensures Checksum(s + rest) != Checksum(t + rest)
    decreases |rest|
  {
    if rest == [] {
      assert s + rest == s && t + rest == t;
    } else {
      var n := |rest| - 1;
      ChecksumsStayApart(s, t, rest[..n]);
      LastStep(s + rest[..n], rest[n]);
      LastStep(t + rest[..n], rest[n]);
      assert s + rest == s + rest[..n] + [rest[n]] && t + rest == t + rest[..n] + [rest[n]];
      if Checksum(s + rest) == Checksum(t + rest) {
        StepForgetsNothing(Checksum(s + rest[..n]), Checksum(t + rest[..n]), rest[n], rest[n]);
      }
    }
  }

  /** Changing any one byte changes the checksum. */
  lemma OneByteShows(s: seq<byte>, i: nat, b: byte)
    requires i < |s| && b != s[i]
    ensures Checksum(s[i := b]) != Checksum(s)
  {
    LastByteShows(s[..i], s[i], b);
    ChecksumsStayApart(s[..i] + [s[i]], s[..i] + [b], s[i + 1..]);
    assert s == s[..i] + [s[i]] + s[i + 1..] && s[i := b] == s[..i] + [b] + s[i + 1..];
  }

  // ---- the stream ----

  /** Shifting down by the mix's amounts, as it divides. */
  lemma ShiftsAre(a: nat)
    ensures Shr(a, 30) == a / 0x4000_0000 && Shr(a, 27) == a / 0x800_0000 && Shr(a, 31) == a / 0x8000_0000
  {
    assert Pow2(9) == 0x200 && Pow2(3) == 8;
    PowerOfSum(9, 9);
    PowerOfSum(9, 18);
    PowerOfSum(3, 27);
    ShrIsQuotient(a, 27);
    ShrIsQuotient(a, 30);
    ShrIsQuotient(a, 31);
  }

  lemma ShiftedXorInjective(a: Word64, b: Word64, k: nat, c: nat, d: nat)
    requires 0 < k && c == Shr(a, k) && d == Shr(b, k) && Xor(a, c) == Xor(b, d)
    ensures a == b
  {
    PowersOfTwo();
    XorShiftInjective(a, b, 64, k, 0);
  }

  lemma FirstFactorInjective(a: Word64, b: Word64)
    requires Times(a, 0xBF58_476D_1CE4_E5B9) == Times(b, 0xBF58_476D_1CE4_E5B9)
    ensures a == b
  {
    TimesInjective(a, b, 0xBF58_476D_1CE4_E5B9, 0x96DE_1B17_3F11_9089);
  }

  lemma SecondFactorInjective(a: Word64, b: Word64)
    requires Times(a, 0x94D0_49BB_1331_11EB) == Times(b, 0x94D0_49BB_1331_11EB)
    ensures a == b
  {
    TimesInjective(a, b, 0x94D0_49BB_1331_11EB, 0x3196_42B2_D24D_8EC3);
  }

  /** The mix, step by step. */
  lemma MixParts(a: Word64) returns (x: Word64, y: Word64, z: Word64, w: Word64)
    ensures x == Xor(a, Shr(a, 30)) && y == Times(x, 0xBF58_476D_1CE4_E5B9)
    ensures z == Xor(y, Shr(y, 27)) && w == Times(z, 0x94D0_49BB_1331_11EB)
    ensures Mix(a) == Xor(w, Shr(w, 31))
  {
    ShiftsAre(a);
    x := XorWord(a, a / 0x4000_0000);
    y := Times(x, 0xBF58_476D_1CE4_E5B9);
    ShiftsAre(y);
    z := XorWord(y, y / 0x800_0000);
    w := Times(z, 0x94D0_49BB_1331_11EB);
    ShiftsAre(w);
  }

  /** The output mix loses nothing: different states give different words. */
  lemma MixForgetsNothing(a: Word64, b: Word64)
    requires Mix(a) == Mix(b)
    ensures a == b
  {
    var x, y, z, w := MixParts(a);
    var x', y', z', w' := MixParts(b);
    ShiftedXorInjective(w, w', 31, Shr(w, 31), Shr(w', 31));
    SecondFactorInjective(z, z');
    ShiftedXorInjective(y, y', 27, Shr(y, 27), Shr(y', 27));
    FirstFactorInjective(x, x');
    ShiftedXorInjective(a, b, 30, Shr(a, 30), Shr(b, 30));
  }

  function Bytes(n: nat): nat {
    if n == 0 then 1 else 0x100 * Bytes(n - 1)
  }

  /** A word can be told from its bytes. */
  lemma {:induction false} BytesTell(a: nat, b: nat, n: nat)
    requires a < Bytes(n) && b < Bytes(n) && forall k: nat :: k < n ==> ByteOf(a, k) == ByteOf(b, k)
    ensures a == b
  {
    if n > 0 {
      assert ByteOf(a, 0) == ByteOf(b, 0);
      forall k: nat | k < n - 1 ensures ByteOf(a / 0x100, k) == ByteOf(b / 0x100, k) {
        assert ByteOf(a, k + 1) == ByteOf(b, k + 1);
      }
      BytesTell(a / 0x100, b / 0x100, n - 1);
    }
  }

  lemma FirstBytes(s: Word64, n: nat, word: Word64)
    requires n >= 8 && word == Mix(NextState(s))
    ensures forall k: nat :: k < 8 ==> Filled(s, n)[k] == ByteOf(word, k)
  {
    assert StateAfter(s, 1) == NextState(s);
    forall k: nat | k < 8 ensures Filled(s, n)[k] == ByteOf(word, k) {
      assert Filled(s, n)[k] == FillByte(s, k);
    }
  }

  lemma WordFromBytes(p: seq<byte>, a: Word64, b: Word64)
    requires |p| >= 8 && (forall k: nat :: k < 8 ==> p[k] == ByteOf(a, k)) && forall k: nat :: k < 8 ==> p[k] == ByteOf(b, k)
    ensures a == b
  {
    assert Bytes(8) == WORDS;
    forall k: nat | k < 8 ensures ByteOf(a, k) == ByteOf(b, k) {
      assert p[k] == ByteOf(a, k);
    }
    BytesTell(a, b, 8);
  }

  /** The number eight or fewer bytes spell, lowest first. */
  function Spelled(s: seq<byte>): nat {
    if s == [] then 0 else s[0] + 0x100 * Spelled(s[1..])
  }

  lemma {:induction false} BytesSpell(word: nat, s: seq<byte>)
    requires word < Bytes(|s|) && forall k: nat :: k < |s| ==> s[k] == ByteOf(word, k)
    ensures Spelled(s) == word
  {
    if s != [] {
      forall k: nat | k < |s| - 1 ensures s[1..][k] == ByteOf(word / 0x100, k) {
        assert s[k + 1] == ByteOf(word, k + 1);
      }
      BytesSpell(word / 0x100, s[1..]);
      assert s[0] == ByteOf(word, 0);
    }
  }

  /** A filled buffer is the words of the stream one after the other, each spelled lowest byte first. */
  lemma FillIsStream(seed: Word64, n: nat, j: nat)
    requires 8 * j + 8 <= n
    ensures Spelled(Filled(seed, n)[8 * j..8 * j + 8]) == Mix(StateAfter(seed, j + 1))
  {
    var s, word := Filled(seed, n)[8 * j..8 * j + 8], Mix(StateAfter(seed, j + 1));
    assert Bytes(8) == WORDS;
    forall k: nat | k < 8 ensures s[k] == ByteOf(word, k) {
      assert s[k] == FillByte(seed, 8 * j + k);
      assert (8 * j + k) / 8 == j && (8 * j + k) % 8 == k;
    }
    BytesSpell(word, s);
  }

  /** A shorter buffer is the beginning of a longer one: the last word is cut short, not drawn anew. */
  lemma FillIsPrefix(seed: Word64, m: nat, n: nat)
    requires m <= n
    ensures Filled(seed, m) == Filled(seed, n)[..m]
  {
  }

  lemma NextForgetsNothing(s: Word64, t: Word64)
    requires NextState(s) == NextState(t)
    ensures s == t
  {
  }

  /** A stream of at least one word gives its seed away. */
  lemma StreamsDiffer(s: Word64, t: Word64, n: nat)
    requires n >= 8 && Filled(s, n) == Filled(t, n)
    ensures s == t
  {
    FirstBytes(s, n, Mix(NextState(s)));
    FirstBytes(t, n, Mix(NextState(t)));
    WordFromBytes(Filled(s, n), Mix(NextState(s)), Mix(NextState(t)));
    MixForgetsNothing(NextState(s), NextState(t));
    NextForgetsNothing(s, t);
  }

  lemma BatchFactorInjective(a: Word64, b: Word64)
    requires Times(a, 0xD6E8_FEB8_6659_FD93) == Times(b, 0xD6E8_FEB8_6659_FD93)
    ensures a == b
  {
    TimesInjective(a, b, 0xD6E8_FEB8_6659_FD93, 0xCFEE_444D_8B59_A89B);
  }

  lemma XorWithTells(seed: nat, x: nat, y: nat)
    requires Xor(seed, x) == Xor(seed, y)
    ensures x == y
  {
    XorCommutes(seed, x);
    XorCommutes(seed, y);
    XorInjective(x, y, seed);
  }

  lemma SeedsDiffer(seed: Word64, b: Word64, c: Word64)
    requires BatchSeed(seed, b) == BatchSeed(seed, c)
    ensures b == c
  {
    XorWithTells(seed, Times(b, 0xD6E8_FEB8_6659_FD93), Times(c, 0xD6E8_FEB8_6659_FD93));
    BatchFactorInjective(b, c);
  }

  /** Different batches of a seed get different bytes. */
  lemma BatchesDiffer(seed: Word64, b: Word64, c: Word64, n: nat)
    requires n >= 8 && b != c
    ensures BatchBytes(seed, b, n) != BatchBytes(seed, c, n)
  {
    if BatchBytes(seed, b, n) == BatchBytes(seed, c, n) {
      StreamsDiffer(BatchSeed(seed, b), BatchSeed(seed, c), n);
      SeedsDiffer(seed, b, c);
    }
  }

  // ---- the stages ----

  lemma SumTells(a: byte, b: byte, key: byte)
    requires AddByte(a, key) == AddByte(b, key)
    ensures a == b
  {
  }

  lemma AccumulateTells(acc: byte, a: byte, b: byte)
    requires Accumulate(acc, a) == Accumulate(acc, b)
    ensures a == b
  {
    var turned: byte := acc * 8 % 0x100 + acc / 0x20;
    XorWithTells(turned, a, b);
  }

  lemma AccumulatorsTell(key: byte, s: seq<byte>, t: seq<byte>, i: nat)
    requires i < |s| == |t| && Accumulated(key, s[..i]) == Accumulated(key, t[..i])
    requires OutByte(key, s, i) == OutByte(key, t, i)
    ensures s[i] == t[i]
  {
    SumTells(Accumulated(key, s[..i + 1]), Accumulated(key, t[..i + 1]), key);
    AccumulateNext(key, s, i);
    AccumulateNext(key, t, i);
    AccumulateTells(Accumulated(key, s[..i]), s[i], t[i]);
  }

  lemma OneMoreSame(s: seq<byte>, t: seq<byte>, i: nat)
    requires i < |s| == |t| && s[..i] == t[..i] && s[i] == t[i]
    ensures s[..i + 1] == t[..i + 1]
  {
    assert s[..i + 1] == s[..i] + [s[i]] && t[..i + 1] == t[..i] + [t[i]];
  }

  /** The same output so far, so the same input so far. */
  lemma {:induction false} PrefixesTell(key: byte, s: seq<byte>, t: seq<byte>, i: nat)
    requires i <= |s| == |t| && forall j :: 0 <= j < |s| ==> OutByte(key, s, j) == OutByte(key, t, j)
    ensures s[..i] == t[..i]
  {
    if i > 0 {
      PrefixesTell(key, s, t, i - 1);
      AccumulatorsTell(key, s, t, i - 1);
      OneMoreSame(s, t, i - 1);
    }
  }

  /** A stage loses nothing: different bytes in, different bytes out. */
  lemma StageForgetsNothing(stage: nat, s: seq<byte>, t: seq<byte>)
    requires |s| == |t| && Transformed(stage, s) == Transformed(stage, t)
    ensures s == t
  {
    var key := StageKey(stage);
    forall j | 0 <= j < |s| ensures OutByte(key, s, j) == OutByte(key, t, j) {
      assert Transformed(stage, s)[j] == Transformed(stage, t)[j];
    }
    PrefixesTell(key, s, t, |s|);
    assert s[..|s|] == s && t[..|t|] == t;
  }

  /** What reaches the sink still depends on the batch: after any number of stages different batches
      have different bytes. */
  lemma {:induction false} WorkKeepsBatchesApart(seed: Word64, b: Word64, c: Word64, n: nat, k: nat)
    requires n >= 8 && b != c
    ensures WorkedBytes(seed, b, n, k) != WorkedBytes(seed, c, n, k)
  {
    if k == 0 {
      BatchesDiffer(seed, b, c, n);
    } else {
      WorkKeepsBatchesApart(seed, b, c, n, k - 1);
      if WorkedBytes(seed, b, n, k) == WorkedBytes(seed, c, n, k) {
        StageForgetsNothing(k - 1, WorkedBytes(seed, b, n, k - 1), WorkedBytes(seed, c, n, k - 1));
      }
    }
  }
}
