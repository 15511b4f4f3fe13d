/** The port routines on the bits themselves: CBCAP and CBMIX instruction by instruction.

    Each shift and mask is a lemma about the number a byte's bits make, so that what the
    routines leave in their cells is the arithmetic of Wire.dfy. */
module Ports {
  import opened Bytes
  import opened Wire

  const IW_TRIG: bv8 := 0x80
  const IW_DIFF: bv8 := 0x40
  const IW_RST: bv8 := 0x10
  const IW_STICK: bv8 := 0x0F

  function Bit(e: bv8, mask: bv8): (n: int)
    ensures 0 <= n < 2
  {
    if e & mask == 0 then 0 else 1
  }

  /** The number eight bits make. */
  function ByteOf(e: bv8): u8 {
    Bit(e, 0x80) * 128 + Bit(e, 0x40) * 64 + Bit(e, 0x20) * 32 + Bit(e, 0x10) * 16
    + Bit(e, 0x08) * 8 + Bit(e, 0x04) * 4 + Bit(e, 0x02) * 2 + Bit(e, 0x01)
  }

  function BitIf(n: int, mask: bv8): bv8 {
    if n == 0 then 0 else mask
  }

  /** The bits of a number. */
  function BitsOf(b: u8): bv8 {
    BitIf(b / 128, 0x80) | BitIf(b / 64 % 2, 0x40) | BitIf(b / 32 % 2, 0x20) | BitIf(b / 16 % 2, 0x10)
    | BitIf(b / 8 % 2, 0x08) | BitIf(b / 4 % 2, 0x04) | BitIf(b / 2 % 2, 0x02) | BitIf(b % 2, 0x01)
  }

  /** A number's bits in order of weight. */
  lemma BinaryDigits(b: u8)
    ensures b == b / 128 * 128 + b / 64 % 2 * 64 + b / 32 % 2 * 32 + b / 16 % 2 * 16
                 + b / 8 % 2 * 8 + b / 4 % 2 * 4 + b / 2 % 2 * 2 + b % 2
  {
    var q2, q3, q4, q5, q6, q7 := Halves(b);
    assert b / 128 == q7;
  }

  lemma Halves(b: int) returns (q2: int, q3: int, q4: int, q5: int, q6: int, q7: int)
    ensures q2 == b / 4 && q3 == b / 8 && q4 == b / 16 && q5 == b / 32 && q6 == b / 64 && q7 == b / 128
    ensures b == b / 2 * 2 + b % 2 && b / 2 == q2 * 2 + b / 2 % 2 && q2 == q3 * 2 + q2 % 2
    ensures q3 == q4 * 2 + q3 % 2 && q4 == q5 * 2 + q4 % 2 && q5 == q6 * 2 + q5 % 2 && q6 == q7 * 2 + q6 % 2
  {
    q2 := b / 2 / 2;
    q3 := q2 / 2;
    q4 := q3 / 2;
    q5 := q4 / 2;
    q6 := q5 / 2;
    q7 := q6 / 2;
  }

  lemma BitsOfBits(b: u8)
    ensures var e := BitsOf(b);
      && Bit(e, 0x80) == b / 128 && Bit(e, 0x40) == b / 64 % 2
      && Bit(e, 0x20) == b / 32 % 2 && Bit(e, 0x10) == b / 16 % 2
      && Bit(e, 0x08) == b / 8 % 2 && Bit(e, 0x04) == b / 4 % 2
      && Bit(e, 0x02) == b / 2 % 2 && Bit(e, 0x01) == b % 2
  {
    FromBits(BitIf(b / 128, 0x80), BitIf(b / 64 % 2, 0x40), BitIf(b / 32 % 2, 0x20), BitIf(b / 16 % 2, 0x10),
             BitIf(b / 8 % 2, 0x08), BitIf(b / 4 % 2, 0x04), BitIf(b / 2 % 2, 0x02), BitIf(b % 2, 0x01));
  }

  lemma FromBits(b7: bv8, b6: bv8, b5: bv8, b4: bv8, b3: bv8, b2: bv8, b1: bv8, b0: bv8)
    requires (b7 == 0 || b7 == 0x80) && (b6 == 0 || b6 == 0x40) && (b5 == 0 || b5 == 0x20) && (b4 == 0 || b4 == 0x10)
    requires (b3 == 0 || b3 == 0x08) && (b2 == 0 || b2 == 0x04) && (b1 == 0 || b1 == 0x02) && (b0 == 0 || b0 == 0x01)
    ensures var e := b7 | b6 | b5 | b4 | b3 | b2 | b1 | b0;
      && e & 0x80 == b7 && e & 0x40 == b6 && e & 0x20 == b5 && e & 0x10 == b4
      && e & 0x08 == b3 && e & 0x04 == b2 && e & 0x02 == b1 && e & 0x01 == b0
  {
  }

  /** A number survives being loaded as bits and stored back. */
  lemma ByteOfBitsOf(b: u8)
    ensures ByteOf(BitsOf(b)) == b
  {
    hide BitsOf, Bit;
    BitsOfBits(b);
    BinaryDigits(b);
  }

  /** No two bytes have the same number. */
  lemma ByteOfInjective(e: bv8, f: bv8)
    requires ByteOf(e) == ByteOf(f)
    ensures e == f
  {
    hide Bit;
    SameDigits(Bit(e, 0x80), Bit(e, 0x40), Bit(e, 0x20), Bit(e, 0x10), Bit(e, 0x08), Bit(e, 0x04), Bit(e, 0x02),
               Bit(e, 0x01), Bit(f, 0x80), Bit(f, 0x40), Bit(f, 0x20), Bit(f, 0x10), Bit(f, 0x08), Bit(f, 0x04),
               Bit(f, 0x02), Bit(f, 0x01));
    BitsSame(e, f);
  }

  lemma BitsSame(e: bv8, f: bv8)
    requires Bit(e, 0x80) == Bit(f, 0x80) && Bit(e, 0x40) == Bit(f, 0x40)
    requires Bit(e, 0x20) == Bit(f, 0x20) && Bit(e, 0x10) == Bit(f, 0x10)
    requires Bit(e, 0x08) == Bit(f, 0x08) && Bit(e, 0x04) == Bit(f, 0x04)
    requires Bit(e, 0x02) == Bit(f, 0x02) && Bit(e, 0x01) == Bit(f, 0x01)
    ensures e == f
  {
    assert e & 0x80 == f & 0x80 && e & 0x40 == f & 0x40 && e & 0x20 == f & 0x20 && e & 0x10 == f & 0x10;
    assert e & 0x08 == f & 0x08 && e & 0x04 == f & 0x04 && e & 0x02 == f & 0x02 && e & 0x01 == f & 0x01;
    assert (e ^ f) & 0xF0 == 0 && (e ^ f) & 0x0F == 0;
  }

  ghost predicate Binary(n: int) {
    0 <= n < 2
  }

  lemma SameDigits(a7: int, a6: int, a5: int, a4: int, a3: int, a2: int, a1: int, a0: int,
                   b7: int, b6: int, b5: int, b4: int, b3: int, b2: int, b1: int, b0: int)
    requires Binary(a7) && Binary(a6) && Binary(a5) && Binary(a4)
    requires Binary(a3) && Binary(a2) && Binary(a1) && Binary(a0)
    requires Binary(b7) && Binary(b6) && Binary(b5) && Binary(b4)
    requires Binary(b3) && Binary(b2) && Binary(b1) && Binary(b0)
    requires a7 * 128 + a6 * 64 + a5 * 32 + a4 * 16 + a3 * 8 + a2 * 4 + a1 * 2 + a0
          == b7 * 128 + b6 * 64 + b5 * 32 + b4 * 16 + b3 * 8 + b2 * 4 + b1 * 2 + b0
    ensures a7 == b7 && a6 == b6 && a5 == b5 && a4 == b4 && a3 == b3 && a2 == b2 && a1 == b1 && a0 == b0
  {
    assert a7 == b7;
    assert a6 == b6;
    assert a5 == b5;
    assert a4 == b4;
  }

  // -------------------------------------------------------------- the instructions

  function Lsr(e: bv8): bv8 { e >> 1 }

  function Asl(e: bv8): bv8 { e << 1 }

  function And(e: bv8, f: bv8): bv8 { e & f }

  function Ora(e: bv8, f: bv8): bv8 { e | f }

  // -------------------------------------------------------------- what each does to the number

  /** The number, its eight bits named. */
  lemma Parts(e: bv8) returns (hi: int, lo: int)
    ensures 0 <= hi < 16 && 0 <= lo < 16 && ByteOf(e) == hi * 16 + lo
    ensures hi == Bit(e, 0x80) * 8 + Bit(e, 0x40) * 4 + Bit(e, 0x20) * 2 + Bit(e, 0x10)
    ensures lo == Bit(e, 0x08) * 8 + Bit(e, 0x04) * 4 + Bit(e, 0x02) * 2 + Bit(e, 0x01)
    ensures ByteOf(e) / 16 == hi && ByteOf(e) % 16 == lo
  {
    hide ByteOf;
    hi := Bit(e, 0x80) * 8 + Bit(e, 0x40) * 4 + Bit(e, 0x20) * 2 + Bit(e, 0x10);
    lo := Bit(e, 0x08) * 8 + Bit(e, 0x04) * 4 + Bit(e, 0x02) * 2 + Bit(e, 0x01);
    assert ByteOf(e) == hi * 16 + lo by { Sum(e); }
  }

  lemma Sum(e: bv8)
    ensures ByteOf(e) == (Bit(e, 0x80) * 8 + Bit(e, 0x40) * 4 + Bit(e, 0x20) * 2 + Bit(e, 0x10)) * 16
                         + Bit(e, 0x08) * 8 + Bit(e, 0x04) * 4 + Bit(e, 0x02) * 2 + Bit(e, 0x01)
  {
  }

  lemma Lsr4(e: bv8)
    ensures ByteOf(Lsr(Lsr(Lsr(Lsr(e))))) == ByteOf(e) / 16
  {
    var f := Lsr(Lsr(Lsr(Lsr(e))));
    var hi, lo := Parts(e);
    Sum(f);
    hide ByteOf;
    assert Bit(f, 0x80) == 0 && Bit(f, 0x40) == 0 && Bit(f, 0x20) == 0 && Bit(f, 0x10) == 0;
    assert Bit(f, 0x08) == Bit(e, 0x80) && Bit(f, 0x04) == Bit(e, 0x40);
    assert Bit(f, 0x02) == Bit(e, 0x20) && Bit(f, 0x01) == Bit(e, 0x10);
  }

  lemma Asl4(e: bv8)
    ensures ByteOf(Asl(Asl(Asl(Asl(e))))) == ByteOf(e) % 16 * 16
  {
    var f := Asl(Asl(Asl(Asl(e))));
    var hi, lo := Parts(e);
    Sum(f);
    hide ByteOf;
    assert Bit(f, 0x08) == 0 && Bit(f, 0x04) == 0 && Bit(f, 0x02) == 0 && Bit(f, 0x01) == 0;
    assert Bit(e, 0x08) == Bit(f, 0x80) && Bit(e, 0x04) == Bit(f, 0x40);
    assert Bit(e, 0x02) == Bit(f, 0x20) && Bit(e, 0x01) == Bit(f, 0x10);
  }

  /** Shifting the difficulty bit up to bit 7. */
  lemma AslDifficulty(e: bv8)
    ensures ByteOf(Asl(And(e, IW_DIFF))) == ByteOf(And(e, IW_DIFF)) * 2
  {
  }

  ghost predicate Disjoint(e: bv8, f: bv8) {
    e & f == 0
  }

  lemma OraAdds(e: bv8, f: bv8)
    requires Disjoint(e, f)
    ensures ByteOf(Ora(e, f)) == ByteOf(e) + ByteOf(f)
  {
    OraBit(e, f, 0x80);
    OraBit(e, f, 0x40);
    OraBit(e, f, 0x20);
    OraBit(e, f, 0x10);
    OraBit(e, f, 0x08);
    OraBit(e, f, 0x04);
    OraBit(e, f, 0x02);
    OraBit(e, f, 0x01);
    hide Bit;
  }

  lemma OraBit(e: bv8, f: bv8, mask: bv8)
    requires e & f == 0
    requires mask == 0x80 || mask == 0x40 || mask == 0x20 || mask == 0x10
          || mask == 0x08 || mask == 0x04 || mask == 0x02 || mask == 0x01
    ensures Bit(e | f, mask) == Bit(e, mask) + Bit(f, mask)
  {
  }

  /** Each bit of a byte is the one its number has at that weight. */
  lemma BitIsDigit(e: bv8)
    ensures var b := ByteOf(e);
      && Bit(e, 0x80) == b / 128 && Bit(e, 0x40) == b / 64 % 2
      && Bit(e, 0x20) == b / 32 % 2 && Bit(e, 0x10) == b / 16 % 2
      && Bit(e, 0x08) == b / 8 % 2 && Bit(e, 0x04) == b / 4 % 2
      && Bit(e, 0x02) == b / 2 % 2 && Bit(e, 0x01) == b % 2
  {
    var b := ByteOf(e);
    ByteOfBitsOf(b);
    ByteOfInjective(BitsOf(b), e);
    BitsOfBits(b);
  }

  lemma Masks(e: bv8)
    ensures ByteOf(And(e, 0x80)) == ByteOf(e) / 128 * 128
    ensures ByteOf(And(e, 0x40)) == ByteOf(e) / 64 % 2 * 64
    ensures ByteOf(And(e, 0x08)) == ByteOf(e) / 8 % 2 * 8
    ensures ByteOf(And(e, 0x0F)) == ByteOf(e) % 16
  {
    BitIsDigit(e);
    assert ByteOf(And(e, 0x80)) == Bit(e, 0x80) * 128;
    assert ByteOf(And(e, 0x40)) == Bit(e, 0x40) * 64;
    assert ByteOf(And(e, 0x08)) == Bit(e, 0x08) * 8;
    hide Bit;
    Nibble(e);
  }

  lemma Nibble(e: bv8)
    ensures ByteOf(And(e, 0x0F)) == ByteOf(e) % 16
  {
    var hi, lo := Parts(e);
    Sum(e & 0x0F);
    hide ByteOf;
    assert Bit(e & 0x0F, 0x80) == 0 && Bit(e & 0x0F, 0x40) == 0 && Bit(e & 0x0F, 0x20) == 0 && Bit(e & 0x0F, 0x10) == 0;
    assert Bit(e & 0x0F, 0x08) == Bit(e, 0x08) && Bit(e & 0x0F, 0x04) == Bit(e, 0x04);
    assert Bit(e & 0x0F, 0x02) == Bit(e, 0x02) && Bit(e & 0x0F, 0x01) == Bit(e, 0x01);
  }

  lemma LowTwo(e: bv8)
    ensures ByteOf(And(e, 0x03)) == ByteOf(e) % 4
  {
    BitIsDigit(e);
    assert ByteOf(And(e, 0x03)) == Bit(e, 0x02) * 2 + Bit(e, 0x01);
    hide Bit, ByteOf;
    var b := ByteOf(e);
    assert b == b / 2 / 2 * 4 + b / 2 % 2 * 2 + b % 2;
  }

  /** The two active-low switches of both players, ANDed and shifted down; SELECT forced
      high by the ORA. */
  lemma Switches(w0: bv8, w1: bv8)
    ensures var t := And(Lsr(Lsr(Lsr(Lsr(And(w0, w1))))), 0x03);
      && ByteOf(t) == Both(Select(ByteOf(w0)), Select(ByteOf(w1))) * 2 + Both(Reset(ByteOf(w0)), Reset(ByteOf(w1)))
      && Disjoint(t, 0xFC) && Disjoint(Ora(t, 0x02), 0xFC)
      && ByteOf(Ora(t, 0x02)) == 2 + Both(Reset(ByteOf(w0)), Reset(ByteOf(w1)))
  {
    BitIsDigit(w0);
    BitIsDigit(w1);
    var t := And(Lsr(Lsr(Lsr(Lsr(And(w0, w1))))), 0x03);
    assert Bit(t, 0x02) == Both(Bit(w0, 0x20), Bit(w1, 0x20)) && Bit(t, 0x01) == Both(Bit(w0, 0x10), Bit(w1, 0x10));
    assert ByteOf(t) == Bit(t, 0x02) * 2 + Bit(t, 0x01);
    assert ByteOf(Ora(t, 0x02)) == 2 + Bit(t, 0x01);
  }

  // -------------------------------------------------------------- the routines

  function Down4(e: bv8): bv8 { Lsr(Lsr(Lsr(Lsr(e)))) }

  function Up4(e: bv8): bv8 { Asl(Asl(Asl(Asl(e)))) }

  lemma PortsDisjoint(x: bv8, y: bv8, z: bv8)
    ensures Disjoint(And(y, IW_TRIG), Down4(x))
    ensures Disjoint(Up4(And(z, 0x03)), Ora(And(y, IW_TRIG), Down4(x)))
    ensures Disjoint(And(z, 0x40), Ora(Up4(And(z, 0x03)), Ora(And(y, IW_TRIG), Down4(x))))
  {
  }

  /** CBCAP: the left stick down a nibble, its trigger, RESET and SELECT up to bits 4 and 5,
      the left difficulty switch. */
  method PackPorts(swcha: bv8, inpt4: bv8, inpt5: bv8, swchb: bv8) returns (a: bv8)
    ensures ByteOf(a) == Capture(Hardware(ByteOf(swcha), ByteOf(inpt4), ByteOf(inpt5), ByteOf(swchb)))
  {
    hide ByteOf, Lsr, Asl, And, Ora, Disjoint;
    a := swcha;
    a := Lsr(a);
    a := Lsr(a);
    a := Lsr(a);
    a := Lsr(a);
    var tmp := a;
    a := And(inpt4, IW_TRIG);
    a := Ora(a, tmp);
    tmp := a;
    a := And(swchb, 0x03);
    a := Asl(a);
    a := Asl(a);
    a := Asl(a);
    a := Asl(a);
    a := Ora(a, tmp);
    tmp := a;
    a := And(swchb, 0x40);
    a := Ora(a, tmp);
    PackedIs(swcha, inpt4, inpt5, swchb);
  }

  lemma PackedIs(x: bv8, y: bv8, y': bv8, z: bv8)
    ensures ByteOf(Ora(And(z, 0x40), Ora(Up4(And(z, 0x03)), Ora(And(y, IW_TRIG), Down4(x)))))
         == Capture(Hardware(ByteOf(x), ByteOf(y), ByteOf(y'), ByteOf(z)))
  {
    hide ByteOf, Lsr, Asl, And, Ora, Disjoint;
    PortsDisjoint(x, y, z);
    OraAdds(And(y, IW_TRIG), Down4(x));
    OraAdds(Up4(And(z, 0x03)), Ora(And(y, IW_TRIG), Down4(x)));
    OraAdds(And(z, 0x40), Ora(Up4(And(z, 0x03)), Ora(And(y, IW_TRIG), Down4(x))));
    Lsr4(x);
    Masks(y);
    Masks(z);
    RaisedSwitches(z);
  }

  lemma RaisedSwitches(z: bv8)
    ensures ByteOf(Up4(And(z, 0x03))) == ByteOf(z) % 4 * 16
  {
    hide ByteOf, Lsr, Asl, And, Ora, Disjoint;
    LowTwo(z);
    Asl4(And(z, 0x03));
    SmallEnough(ByteOf(z) % 4);
  }

  lemma SmallEnough(n: int)
    requires 0 <= n < 4
    ensures n % 16 == n
  {
  }

  lemma SwitchesDisjoint(t: bv8, w0: bv8, w1: bv8, z: bv8)
    requires Disjoint(t, 0xFC)
    ensures Disjoint(And(z, 0x08), t)
    ensures Disjoint(Ora(And(z, 0x08), t), 0x34)
    ensures Disjoint(And(w0, IW_DIFF), Ora(Ora(And(z, 0x08), t), 0x34))
    ensures Disjoint(Asl(And(w1, IW_DIFF)), Ora(And(w0, IW_DIFF), Ora(Ora(And(z, 0x08), t), 0x34)))
    ensures ByteOf(0x34) == 0x34
  {
  }

  lemma MixedSwitches(t: bv8, w0: bv8, w1: bv8, z: bv8)
    requires Disjoint(t, 0xFC)
    ensures ByteOf(Ora(Asl(And(w1, IW_DIFF)), Ora(And(w0, IW_DIFF), Ora(Ora(And(z, 0x08), t), 0x34))))
         == Difficulty(ByteOf(w1)) * 128 + Difficulty(ByteOf(w0)) * 64 + 0x34 + ByteOf(z) / 8 % 2 * 8 + ByteOf(t)
  {
    hide ByteOf, Lsr, Asl, And, Ora, Disjoint;
    SwitchesDisjoint(t, w0, w1, z);
    OraAdds(And(z, 0x08), t);
    OraAdds(Ora(And(z, 0x08), t), 0x34);
    OraAdds(And(w0, IW_DIFF), Ora(Ora(And(z, 0x08), t), 0x34));
    OraAdds(Asl(And(w1, IW_DIFF)), Ora(And(w0, IW_DIFF), Ora(Ora(And(z, 0x08), t), 0x34)));
    AslDifficulty(w1);
    Masks(w0);
    Masks(w1);
    Masks(z);
  }

  lemma JoyMixed(w0: bv8, w1: bv8)
    ensures ByteOf(Ora(And(w1, IW_STICK), Up4(w0))) == ByteOf(w0) % 16 * 16 + ByteOf(w1) % 16
  {
    assert Disjoint(And(w1, IW_STICK), Up4(w0));
    hide ByteOf, Lsr, Asl, And, Ora, Disjoint;
    OraAdds(And(w1, IW_STICK), Up4(w0));
    Asl4(w0);
    Masks(w1);
  }

  /** CBMIX: two wire bytes into the cells Combat reads: the sticks side by side, the
      triggers, the switches ANDed with SELECT masked while a game is on, the local B&W
      bit, the bits that read high, the difficulty switches uncrossed. */
  method MixBytes(w0: bv8, w1: bv8, gameOn: u8, swchb: bv8) returns (joy: bv8, trig0: bv8, trig1: bv8, swb: bv8)
    ensures Shadows(ByteOf(joy), ByteOf(trig0), ByteOf(trig1), ByteOf(swb))
         == Mix(ByteOf(w0), ByteOf(w1), gameOn >= 128, ByteOf(swchb))
  {
    hide ByteOf, Lsr, Asl, And, Ora, Disjoint;
    var a := w0;
    a := Asl(a);
    a := Asl(a);
    a := Asl(a);
    a := Asl(a);
    var tmp := a;
    a := And(w1, IW_STICK);
    joy := Ora(a, tmp);
    JoyMixed(w0, w1);
    trig0 := And(w0, IW_TRIG);
    trig1 := And(w1, IW_TRIG);
    Masks(w0);
    Masks(w1);
    a := And(w0, w1);
    a := Lsr(a);
    a := Lsr(a);
    a := Lsr(a);
    a := Lsr(a);
    a := And(a, 0x03);
    Switches(w0, w1);
    if gameOn >= 128 {
      a := Ora(a, 0x02);
    }
    tmp := a;
    MixedSwitches(tmp, w0, w1, swchb);
    a := And(swchb, 0x08);
    a := Ora(a, tmp);
    a := Ora(a, 0x34);
    tmp := a;
    a := And(w0, IW_DIFF);
    a := Ora(a, tmp);
    tmp := a;
    a := And(w1, IW_DIFF);
    a := Asl(a);
    swb := Ora(a, tmp);
  }

  /** CBRSY: RESET is active low, so clearing the bit presses it. */
  method PressReset(b: bv8) returns (a: bv8)
    ensures ByteOf(a) == Press(ByteOf(b))
  {
    a := And(b, 0xFF - IW_RST);
    BitIsDigit(b);
  }
}
