/** Published values of the checksum and of the generator, computed digit by digit: they pin every constant
    and every step. */
module Vectors {
  import opened Data

  // ---- exclusive or on hexadecimal digits ----

  datatype Hex = Hex(b3: bool, b2: bool, b1: bool, b0: bool)

  datatype Quad = Quad(h3: Hex, h2: Hex, h1: Hex, h0: Hex)

  datatype Word = Word(q3: Quad, q2: Quad, q1: Quad, q0: Quad)

  const D0 := Hex(false, false, false, false)
  const D1 := Hex(false, false, false, true)
  const D2 := Hex(false, false, true, false)
  const D3 := Hex(false, false, true, true)
  const D4 := Hex(false, true, false, false)
  const D5 := Hex(false, true, false, true)
  const D6 := Hex(false, true, true, false)
  const D7 := Hex(false, true, true, true)
  const D8 := Hex(true, false, false, false)
  const D9 := Hex(true, false, false, true)
  const DA := Hex(true, false, true, false)
  const DB := Hex(true, false, true, true)
  const DC := Hex(true, true, false, false)
  const DD := Hex(true, true, false, true)
  const DE := Hex(true, true, true, false)
  const DF := Hex(true, true, true, true)

  function One(b: bool): nat {
    if b then 1 else 0
  }

  function Nibble(h: Hex): (n: nat)
    ensures n < 0x10
  {
    if h.b3 then
      if h.b2 then (if h.b1 then (if h.b0 then 15 else 14) else if h.b0 then 13 else 12)
      else (if h.b1 then (if h.b0 then 11 else 10) else if h.b0 then 9 else 8)
    else
      if h.b2 then (if h.b1 then (if h.b0 then 7 else 6) else if h.b0 then 5 else 4)
      else (if h.b1 then (if h.b0 then 3 else 2) else if h.b0 then 1 else 0)
  }

  lemma BitsOf(h: Hex)
    ensures Nibble(h) == 8 * One(h.b3) + 4 * One(h.b2) + 2 * One(h.b1) + One(h.b0)
  {
  }

  function Short(q: Quad): (n: nat)
    ensures n < 0x1_0000
  {
    0x1000 * Nibble(q.h3) + 0x100 * Nibble(q.h2) + 0x10 * Nibble(q.h1) + Nibble(q.h0)
  }

  function Value(w: Word): (n: nat)
    ensures n < 0x1_0000_0000_0000_0000
  {
    0x1_0000_0000_0000 * Short(w.q3) + 0x1_0000_0000 * Short(w.q2) + 0x1_0000 * Short(w.q1) + Short(w.q0)
  }

  function XorHex(h: Hex, g: Hex): Hex {
    Hex(h.b3 != g.b3, h.b2 != g.b2, h.b1 != g.b1, h.b0 != g.b0)
  }

  function XorQuad(h: Quad, g: Quad): Quad {
    Quad(XorHex(h.h3, g.h3), XorHex(h.h2, g.h2), XorHex(h.h1, g.h1), XorHex(h.h0, g.h0))
  }

  function XorOf(h: Word, g: Word): Word {
    Word(XorQuad(h.q3, g.q3), XorQuad(h.q2, g.q2), XorQuad(h.q1, g.q1), XorQuad(h.q0, g.q0))
  }

  lemma {:induction false} PushBit(a: nat, b: nat, c: nat, p: bool, q: bool, a': nat, b': nat, c': nat)
    requires Xor(a, b) == c && a' == 2 * a + One(p) && b' == 2 * b + One(q) && c' == 2 * c + One(p != q)
    ensures Xor(a', b') == c'
  {
  }

  lemma {:induction false} PushTwo(a: nat, b: nat, c: nat, p: bool, q: bool, r: bool, s: bool, a': nat, b': nat, c': nat)
    requires Xor(a, b) == c
    requires a' == 4 * a + 2 * One(p) + One(r) && b' == 4 * b + 2 * One(q) + One(s) && c' == 4 * c + 2 * One(p != q) + One(r != s)
    ensures Xor(a', b') == c'
  {
    var a1, b1, c1 := 2 * a + One(p), 2 * b + One(q), 2 * c + One(p != q);
    PushBit(a, b, c, p, q, a1, b1, c1);
    PushBit(a1, b1, c1, r, s, a', b', c');
  }

  lemma {:induction false} PushBits(a: nat, b: nat, c: nat, p3: bool, p2: bool, p1: bool, p0: bool, q3: bool, q2: bool, q1: bool, q0: bool,
                                    a': nat, b': nat, c': nat)
    requires Xor(a, b) == c
    requires a' == 16 * a + 8 * One(p3) + 4 * One(p2) + 2 * One(p1) + One(p0)
    requires b' == 16 * b + 8 * One(q3) + 4 * One(q2) + 2 * One(q1) + One(q0)
    requires c' == 16 * c + 8 * One(p3 != q3) + 4 * One(p2 != q2) + 2 * One(p1 != q1) + One(p0 != q0)
    ensures Xor(a', b') == c'
  {
    var a1, b1, c1 := 4 * a + 2 * One(p3) + One(p2), 4 * b + 2 * One(q3) + One(q2), 4 * c + 2 * One(p3 != q3) + One(p2 != q2);
    PushTwo(a, b, c, p3, q3, p2, q2, a1, b1, c1);
    PushTwo(a1, b1, c1, p1, q1, p0, q0, a', b', c');
  }

  lemma {:induction false} PushHex(a: nat, b: nat, c: nat, h: Hex, g: Hex, a': nat, b': nat, c': nat)
    requires Xor(a, b) == c && a' == 16 * a + Nibble(h) && b' == 16 * b + Nibble(g) && c' == 16 * c + Nibble(XorHex(h, g))
    ensures Xor(a', b') == c'
  {
    BitsOf(h);
    BitsOf(g);
    BitsOf(XorHex(h, g));
    PushBits(a, b, c, h.b3, h.b2, h.b1, h.b0, g.b3, g.b2, g.b1, g.b0, a', b', c');
  }

  lemma {:induction false} PushQuad(a: nat, b: nat, c: nat, h: Quad, g: Quad, a': nat, b': nat, c': nat)
    requires Xor(a, b) == c
    requires a' == 0x1_0000 * a + Short(h) && b' == 0x1_0000 * b + Short(g) && c' == 0x1_0000 * c + Short(XorQuad(h, g))
    ensures Xor(a', b') == c'
  {
    var d := XorQuad(h, g);
    var a1, b1, c1 := 16 * a + Nibble(h.h3), 16 * b + Nibble(g.h3), 16 * c + Nibble(d.h3);
    var a2, b2, c2 := 16 * a1 + Nibble(h.h2), 16 * b1 + Nibble(g.h2), 16 * c1 + Nibble(d.h2);
    var a3, b3, c3 := 16 * a2 + Nibble(h.h1), 16 * b2 + Nibble(g.h1), 16 * c2 + Nibble(d.h1);
    PushHex(a, b, c, h.h3, g.h3, a1, b1, c1);
    PushHex(a1, b1, c1, h.h2, g.h2, a2, b2, c2);
    PushHex(a2, b2, c2, h.h1, g.h1, a3, b3, c3);
    PushHex(a3, b3, c3, h.h0, g.h0, a', b', c');
  }

  /** Exclusive or goes digit by digit. */
  lemma {:induction false} XorIs(v: Word, w: Word)
    ensures XorWord(Value(v), Value(w)) == Value(XorOf(v, w))
  {
    var d := XorOf(v, w);
    var a1, b1, c1 := Short(v.q3), Short(w.q3), Short(d.q3);
    var a2, b2, c2 := 0x1_0000 * a1 + Short(v.q2), 0x1_0000 * b1 + Short(w.q2), 0x1_0000 * c1 + Short(d.q2);
    var a3, b3, c3 := 0x1_0000 * a2 + Short(v.q1), 0x1_0000 * b2 + Short(w.q1), 0x1_0000 * c2 + Short(d.q1);
    PushQuad(0, 0, 0, v.q3, w.q3, a1, b1, c1);
    PushQuad(a1, b1, c1, v.q2, w.q2, a2, b2, c2);
    PushQuad(a2, b2, c2, v.q1, w.q1, a3, b3, c3);
    PushQuad(a3, b3, c3, v.q0, w.q0, Value(v), Value(w), Value(d));
  }

  function LowByte(high: Hex, low: Hex): Word {
    Word(Quad(D0, D0, D0, D0), Quad(D0, D0, D0, D0), Quad(D0, D0, D0, D0), Quad(D0, D0, high, low))
  }

  lemma LowByteIs(high: Hex, low: Hex)
    ensures Value(LowByte(high, low)) == 0x10 * Nibble(high) + Nibble(low) < 0x100
  {
  }

  // ---- the checksum of the letter a ----

  const OFFSET: Word := Word(Quad(DC, DB, DF, D2), Quad(D9, DC, DE, D4), Quad(D8, D4, D2, D2), Quad(D2, D3, D2, D5))
  const LETTER: Word := LowByte(D6, D1)
  const MIXED: Word := Word(Quad(DC, DB, DF, D2), Quad(D9, DC, DE, D4), Quad(D8, D4, D2, D2), Quad(D2, D3, D4, D4))

  lemma OffsetIs()
    ensures Value(OFFSET) == 0xCBF2_9CE4_8422_2325
  {
  }

  lemma LetterIs()
    ensures Value(LETTER) == 0x61
  {
    LowByteIs(D6, D1);
  }

  lemma MixedIs()
    ensures XorOf(OFFSET, LETTER) == MIXED && Times(Value(MIXED), 0x0000_0100_0000_01B3) == 0xAF63_DC4C_8601_EC8C
  {
  }

  lemma {:induction false} StepIs(h: Word64, b: byte)
    requires h == Value(OFFSET) && b == Value(LETTER)
    ensures FnvStep(h, b) == 0xAF63_DC4C_8601_EC8C
  {
    MixedIs();
    XorIs(OFFSET, LETTER);
  }

  lemma {:induction false} OneStep(s: seq<byte>, h: Word64, b: byte)
    requires s == [b] && h == Checksum([])
    ensures Checksum(s) == FnvStep(h, b)
  {
    assert s[..0] == [];
  }

  /** The published vectors: no bytes at all, and the letter a. */
  lemma ChecksumVectors(s: seq<byte>)
    requires |s| == 1 && s[0] == 0x61
    ensures Checksum([]) == 0xCBF2_9CE4_8422_2325 && Checksum(s) == 0xAF63_DC4C_8601_EC8C
  {
    OffsetIs();
    LetterIs();
    StepIs(Checksum([]), s[0]);
    OneStep(s, Checksum([]), s[0]);
  }

  // ---- the first output of seed zero ----

  const STATE: Word := Word(Quad(D9, DE, D3, D7), Quad(D7, D9, DB, D9), Quad(D7, DF, D4, DA), Quad(D7, DC, D1, D5))
  const SHIFTED1: Word := Word(Quad(D0, D0, D0, D0), Quad(D0, D0, D0, D2), Quad(D7, D8, DD, DD), Quad(DE, D6, DE, D5))
  const XORED1: Word := Word(Quad(D9, DE, D3, D7), Quad(D7, D9, DB, DB), Quad(D0, D7, D9, D7), Quad(D9, DA, DF, D0))
  const PRODUCT1: Word := Word(Quad(D6, DF, D6, D8), Quad(D2, D6, D1, DB), Quad(D5, D7, DE, D7), Quad(DA, D7, D7, D0))
  const SHIFTED2: Word := Word(Quad(D0, D0, D0, D0), Quad(D0, D0, D0, DD), Quad(DE, DD, D0, D4), Quad(DC, D3, D6, DA))
  const XORED2: Word := Word(Quad(D6, DF, D6, D8), Quad(D2, D6, D1, D6), Quad(DB, DA, DE, D3), Quad(D6, D4, D1, DA))
  const PRODUCT2: Word := Word(Quad(DE, D2, D2, D0), Quad(DA, D8, D3, D8), Quad(DB, DF, D5, DC), Quad(D9, DD, DD, DE))
  const SHIFTED3: Word := Word(Quad(D0, D0, D0, D0), Quad(D0, D0, D0, D1), Quad(DC, D4, D4, D1), Quad(D5, D0, D7, D1))
  const OUTPUT: Word := Word(Quad(DE, D2, D2, D0), Quad(DA, D8, D3, D9), Quad(D7, DB, D1, DD), Quad(DC, DD, DA, DF))

  lemma StateIs()
    ensures Value(STATE) == 0x9E37_79B9_7F4A_7C15
  {
  }

  lemma Shifted1Is()
    ensures Value(SHIFTED1) == 0x0000_0002_78DD_E6E5
  {
  }

  lemma Product1Is()
    ensures Value(PRODUCT1) == 0x6F68_261B_57E7_A770
  {
  }

  lemma Shifted2Is()
    ensures Value(SHIFTED2) == 0x0000_000D_ED04_C36A
  {
  }

  lemma Product2Is()
    ensures Value(PRODUCT2) == 0xE220_A838_BF5C_9DDE
  {
  }

  lemma Shifted3Is()
    ensures Value(SHIFTED3) == 0x0000_0001_C441_5071
  {
  }

  lemma OutputIs()
    ensures Value(OUTPUT) == 0xE220_A839_7B1D_CDAF
  {
  }

  lemma DigitsAre()
    ensures XorOf(STATE, SHIFTED1) == XORED1 && XorOf(PRODUCT1, SHIFTED2) == XORED2 && XorOf(PRODUCT2, SHIFTED3) == OUTPUT
  {
  }

  lemma Shift1Is()
    ensures Value(STATE) / 0x4000_0000 == Value(SHIFTED1)
  {
    StateIs();
    Shifted1Is();
  }

  lemma Shift2Is()
    ensures Value(PRODUCT1) / 0x800_0000 == Value(SHIFTED2)
  {
    Product1Is();
    Shifted2Is();
  }

  lemma Shift3Is()
    ensures Value(PRODUCT2) / 0x8000_0000 == Value(SHIFTED3)
  {
    Product2Is();
    Shifted3Is();
  }

  lemma FirstProductIs()
    ensures Times(Value(XORED1), 0xBF58_476D_1CE4_E5B9) == Value(PRODUCT1)
  {
    Product1Is();
  }

  lemma SecondProductIs()
    ensures Times(Value(XORED2), 0x94D0_49BB_1331_11EB) == Value(PRODUCT2)
  {
    Product2Is();
  }

  lemma {:induction false} MixOf(state: Word64)
    requires state == Value(STATE)
    ensures Mix(state) == Value(OUTPUT)
  {
    DigitsAre();
    Shift1Is();
    Shift2Is();
    Shift3Is();
    FirstProductIs();
    SecondProductIs();
    XorIs(STATE, SHIFTED1);
    XorIs(PRODUCT1, SHIFTED2);
    XorIs(PRODUCT2, SHIFTED3);
  }

  lemma FirstState(state: Word64)
    requires state == StateAfter(0, 1)
    ensures state == Value(STATE)
  {
    StateIs();
  }

  /** The published start of the stream of seed zero. */
  lemma StreamVector(state: Word64)
    requires state == StateAfter(0, 1)
    ensures Mix(state) == 0xE220_A839_7B1D_CDAF
  {
    FirstState(state);
    MixOf(state);
    OutputIs();
  }

  // ---- stages out of order ----

  /** `acc` and `b` given by their digits, `acc` already turned. */
  lemma {:induction false} AccumulateIs(acc: byte, b: byte, t1: Hex, t0: Hex, h1: Hex, h0: Hex)
    requires acc * 8 % 0x100 + acc / 0x20 == 0x10 * Nibble(t1) + Nibble(t0) && b == 0x10 * Nibble(h1) + Nibble(h0)
    ensures Accumulate(acc, b) == 0x10 * Nibble(XorHex(t1, h1)) + Nibble(XorHex(t0, h0))
  {
    LowByteIs(t1, t0);
    LowByteIs(h1, h0);
    LowByteIs(XorHex(t1, h1), XorHex(t0, h0));
    XorIs(LowByte(t1, t0), LowByte(h1, h0));
  }

  lemma {:induction false} OneByteStage(stage: nat, s: seq<byte>)
    requires |s| == 1
    ensures Transformed(stage, s) == [AddByte(Accumulate(StageKey(stage), s[0]), StageKey(stage))]
  {
    AccumulateNext(StageKey(stage), s, 0);
    assert s[..0] == [];
  }

  /** A stage over one byte, key and byte given by their digits, the key already turned. */
  lemma {:induction false} StageIs(stage: nat, key: byte, t1: Hex, t0: Hex, s: seq<byte>, h1: Hex, h0: Hex, out: byte)
    requires key == StageKey(stage) && key * 8 % 0x100 + key / 0x20 == 0x10 * Nibble(t1) + Nibble(t0)
    requires |s| == 1 && s[0] == 0x10 * Nibble(h1) + Nibble(h0)
    requires out == (0x10 * Nibble(XorHex(t1, h1)) + Nibble(XorHex(t0, h0)) + key) % 0x100
    ensures Transformed(stage, s) == [out]
  {
    OneByteStage(stage, s);
    AccumulateIs(key, s[0], t1, t0, h1, h0);
  }

  lemma KeysAre(first: nat, second: nat)
    requires first == 0 && second == 1
    ensures StageKey(first) == 0x3B && StageKey(second) == 0xD8
  {
  }

  lemma SumsAre()
    ensures (0x10 * Nibble(XorHex(DD, D0)) + Nibble(XorHex(D9, D0)) + 0x3B) % 0x100 == 0x14
    ensures (0x10 * Nibble(XorHex(DC, D1)) + Nibble(XorHex(D6, D4)) + 0xD8) % 0x100 == 0xAA
    ensures (0x10 * Nibble(XorHex(DC, D0)) + Nibble(XorHex(D6, D0)) + 0xD8) % 0x100 == 0x9E
    ensures (0x10 * Nibble(XorHex(DD, D9)) + Nibble(XorHex(D9, DE)) + 0x3B) % 0x100 == 0x82
  {
  }

  /** Stages in the wrong order give different bytes: a zero byte becomes 0xAA through the first stage and
      then the second, and 0x82 the other way round. */
  lemma {:induction false} StageOrderMatters(first: nat, second: nat, s: seq<byte>)
    requires first == 0 && second == 1 && |s| == 1 && s[0] == 0
    ensures Transformed(second, Transformed(first, s)) == [0xAA] && Transformed(first, Transformed(second, s)) == [0x82]
  {
    KeysAre(first, second);
    SumsAre();
    StageIs(first, StageKey(first), DD, D9, s, D0, D0, 0x14);
    StageIs(second, StageKey(second), DC, D6, Transformed(first, s), D1, D4, 0xAA);
    StageIs(second, StageKey(second), DC, D6, s, D0, D0, 0x9E);
    StageIs(first, StageKey(first), DD, D9, Transformed(second, s), D9, DE, 0x82);
  }
}
