/** One player's console in one byte, and one tick's record in eight.

    `Capture` packs the hardware (src/cbcap.inc), `Mix` unpacks two wire bytes into
    the cells Combat reads (src/cbinput.inc), and `Frame` is a record on the wire.
    A mask is written as the arithmetic it is: `AND #$0F` is `% 16`, four `LSR`s are
    `/ 16`, and an `ORA` of disjoint bits is a sum. */
module Wire {
  import opened Bytes

  const IW_IDLE: u8 := 0xBF
  const IR_SEED: u8 := 0xA5
  const WT_INPUT: u8 := 0x06
  const WT_LEFT: u8 := 0x0B

  // -------------------------------------------------------------- the input byte

  /** What a frame finds on the console's own ports. */
  datatype Hardware = Hardware(swcha: u8, inpt4: u8, inpt5: u8, swchb: u8)

  /** The cells the patched game reads where it used to read the ports. */
  datatype Shadows = Shadows(joy: u8, trig0: u8, trig1: u8, swb: u8)

  function Trigger(b: u8): u8 {
    b / 128
  }

  function Difficulty(b: u8): u8 {
    b / 64 % 2
  }

  function Select(b: u8): u8 {
    b / 32 % 2
  }

  function Reset(b: u8): u8 {
    b / 16 % 2
  }

  function Stick(b: u8): u8 {
    b % 16
  }

  /** CBCAP: the left stick, its trigger, RESET and SELECT shifted up from bits 0 and 1,
      and the left difficulty switch. */
  function Capture(h: Hardware): u8 {
    h.swcha / 16 + h.inpt4 / 128 * 128 + h.swchb % 4 * 16 + h.swchb / 64 % 2 * 64
  }

  /** A RESET press on the wire: the bit is active low. */
  function Press(b: u8): u8 {
    b - Reset(b) * 16
  }

  /** Active low, so AND of the two bits means either player's press counts. */
  function Both(x: u8, y: u8): u8
    requires x < 2 && y < 2
  {
    if x == 1 && y == 1 then 1 else 0
  }

  /** CBMIX: two wire bytes, GameOn's bit 7 and the local SWCHB into the shadows. */
  function Mix(w0: u8, w1: u8, gameOn: bool, local: u8): Shadows {
    var select := if gameOn then 1 else Both(Select(w0), Select(w1));
    Shadows(Stick(w0) * 16 + Stick(w1), Trigger(w0) * 128, Trigger(w1) * 128,
            Difficulty(w1) * 128 + Difficulty(w0) * 64 + 0x34 + local / 8 % 2 * 8
            + select * 2 + Both(Reset(w0), Reset(w1)))
  }

  /** A byte taken apart and put together again. */
  lemma Digits(t: int, d: int, s: int, r: int, k: int)
    requires 0 <= t < 2 && 0 <= d < 2 && 0 <= s < 2 && 0 <= r < 2 && 0 <= k < 16
    ensures var b := t * 128 + d * 64 + s * 32 + r * 16 + k;
      0 <= b < 256 && b / 128 == t && b / 64 % 2 == d && b / 32 % 2 == s && b / 16 % 2 == r && b % 16 == k
  {
  }

  /** What a captured byte says of the ports it was made from. */
  lemma CaptureKeepsThePorts(h: Hardware)
    ensures Trigger(Capture(h)) == h.inpt4 / 128
    ensures Difficulty(Capture(h)) == h.swchb / 64 % 2
    ensures Select(Capture(h)) == h.swchb / 2 % 2
    ensures Reset(Capture(h)) == h.swchb % 2
    ensures Stick(Capture(h)) == h.swcha / 16
  {
    var t, d, s, r, k := h.inpt4 / 128, h.swchb / 64 % 2, h.swchb / 2 % 2, h.swchb % 2, h.swcha / 16;
    assert h.swchb % 4 == s * 2 + r;
    assert Capture(h) == t * 128 + d * 64 + s * 32 + r * 16 + k;
    Digits(t, d, s, r, k);
  }

  /** Every bit of the mixed switch byte. */
  lemma SwitchBits(w0: u8, w1: u8, on: bool, local: u8)
    ensures var b := Mix(w0, w1, on, local).swb;
      && b / 128 == Difficulty(w1)
      && b / 64 % 2 == Difficulty(w0)
      && b / 32 % 2 == 1 && b / 16 % 2 == 1 && b / 4 % 2 == 1
      && b / 8 % 2 == local / 8 % 2
      && b / 2 % 2 == (if on then 1 else Both(Select(w0), Select(w1)))
      && b % 2 == Both(Reset(w0), Reset(w1))
  {
    var s := if on then 1 else Both(Select(w0), Select(w1));
    var low := 4 + local / 8 % 2 * 8 + s * 2 + Both(Reset(w0), Reset(w1));
    Digits(Difficulty(w1), Difficulty(w0), 1, 1, low);
    LowDigits(Difficulty(w1) * 8 + Difficulty(w0) * 4 + 3, local / 8 % 2, s, Both(Reset(w0), Reset(w1)));
  }

  lemma LowDigits(q: int, l: int, s: int, r: int)
    requires 0 <= l < 2 && 0 <= s < 2 && 0 <= r < 2
    ensures var b := q * 16 + 4 + l * 8 + s * 2 + r;
      b / 8 % 2 == l && b / 4 % 2 == 1 && b / 2 % 2 == s && b % 2 == r
  {
    Quotients(q * 2 + l, 4 + s * 2 + r);
    Quotients(0, 4 + s * 2 + r);
    var b := (q * 2 + l) * 8 + (4 + s * 2 + r);
    assert b / 4 == (q * 2 + l) * 2 + 1;
    assert b / 2 == ((q * 2 + l) * 2 + 1) * 2 + s;
  }

  lemma Quotients(x: int, r: int)
    requires 0 <= r < 8
    ensures (x * 8 + r) / 8 == x
    ensures (x * 8 + r) / 4 == x * 2 + r / 4
    ensures (x * 8 + r) / 2 == x * 4 + r / 2
    ensures (x * 8 + r) % 2 == r % 2
  {
  }

  /** What two consoles' ports come to in the cells the game reads: each stick, trigger
      and difficulty switch stays with its player, RESET is either player's, SELECT is
      either player's while no game is on, and the unconnected bits read high. */
  lemma MixOfCaptures(h: Hardware, g: Hardware, on: bool, local: u8)
    ensures var s := Mix(Capture(h), Capture(g), on, local);
      && s.joy / 16 == h.swcha / 16
      && s.joy % 16 == g.swcha / 16
      && s.trig0 / 128 == h.inpt4 / 128
      && s.trig1 / 128 == g.inpt4 / 128
      && (s.swb % 2 == 0 <==> h.swchb % 2 == 0 || g.swchb % 2 == 0)
      && (s.swb / 2 % 2 == 0 <==> !on && (h.swchb / 2 % 2 == 0 || g.swchb / 2 % 2 == 0))
      && s.swb / 64 % 2 == h.swchb / 64 % 2
      && s.swb / 128 == g.swchb / 64 % 2
      && s.swb / 8 % 2 == local / 8 % 2
      && s.swb / 4 % 2 == 1 && s.swb / 16 % 2 == 1 && s.swb / 32 % 2 == 1
  {
    CaptureKeepsThePorts(h);
    CaptureKeepsThePorts(g);
    SwitchBits(Capture(h), Capture(g), on, local);
  }

  /** The shadows with the one local bit, B&W, forced high. */
  function Shared(s: Shadows): Shadows {
    if s.swb / 8 % 2 == 1 then s else s.(swb := if s.swb < 248 then s.swb + 8 else 255)
  }

  /** Whatever each player's own B&W switch says, the rest of the shadows agree. */
  lemma OnlyBlackAndWhiteIsLocal(w0: u8, w1: u8, on: bool, local: u8)
    ensures Shared(Mix(w0, w1, on, local)) == Mix(w0, w1, on, 8)
  {
    SwitchBits(w0, w1, on, local);
  }

  predicate ResetPressed(b: u8) {
    Reset(b) == 0
  }

  /** RESET reaches the game whatever else is pressed and whoever pressed it. */
  lemma ResetReachesTheGame(w0: u8, w1: u8, on: bool, local: u8)
    ensures Mix(w0, w1, on, local).swb % 2 == 0 <==> ResetPressed(w0) || ResetPressed(w1)
  {
    SwitchBits(w0, w1, on, local);
  }

  /** The synthetic press presses RESET and nothing else. */
  lemma PressIsOnlyReset(b: u8)
    ensures ResetPressed(Press(b))
    ensures Trigger(Press(b)) == Trigger(b) && Difficulty(Press(b)) == Difficulty(b)
    ensures Select(Press(b)) == Select(b) && Stick(Press(b)) == Stick(b)
  {
    var h := b / 16;
    assert h / 2 == b / 32 && h / 4 == b / 64 && h / 8 == b / 128;
    assert h == h / 8 * 8 + h / 4 % 2 * 4 + h / 2 % 2 * 2 + h % 2;
    Digits(Trigger(b), Difficulty(b), Select(b), 0, Stick(b));
  }

  /** What the rings are seeded with is a console on which nobody touches anything: sticks
      centred, nothing pressed, both difficulties B. */
  lemma IdleIsUntouched(on: bool, local: u8)
    ensures var s := Mix(IW_IDLE, IW_IDLE, on, local);
      && s.joy == 0xFF && s.trig0 / 128 == 1 && s.trig1 / 128 == 1
      && s.swb % 2 == 1 && s.swb / 2 % 2 == 1 && s.swb / 64 == 0
  {
    SwitchBits(IW_IDLE, IW_IDLE, on, local);
    assert Mix(IW_IDLE, IW_IDLE, on, local).swb / 64 / 2 == 0;
  }

  // -------------------------------------------------------------- exclusive or

  /** EOR, bit by bit from the bottom. */
  function Eor(a: nat, b: nat): nat
    decreases a + b
  {
    if a == 0 && b == 0 then 0 else 2 * Eor(a / 2, b / 2) + (a + b) % 2
  }

  lemma {:induction false} EorSelf(a: nat)
    ensures Eor(a, a) == 0
  {
    if a != 0 {
      EorSelf(a / 2);
    }
  }

  lemma {:induction false} EorZero(a: nat)
    ensures Eor(a, 0) == a
  {
    if a != 0 {
      EorZero(a / 2);
    }
  }

  lemma {:induction false} EorComm(a: nat, b: nat)
    ensures Eor(a, b) == Eor(b, a)
    decreases a + b
  {
    if a != 0 || b != 0 {
      EorComm(a / 2, b / 2);
    }
  }

  lemma {:induction false} EorAssoc(a: nat, b: nat, c: nat)
    ensures Eor(Eor(a, b), c) == Eor(a, Eor(b, c))
    decreases a + b + c
  {
    hide Eor;
    if a == 0 && b == 0 && c == 0 {
      EorZero(0);
    } else {
      EorAssoc(a / 2, b / 2, c / 2);
      EorHalf(a, b);
      EorHalf(b, c);
      EorHalf(Eor(a, b), c);
      EorHalf(a, Eor(b, c));
      ParityOfSums(a, b, c, Eor(a, b), Eor(b, c));
    }
  }

  lemma ParityOfSums(a: nat, b: nat, c: nat, x: nat, y: nat)
    requires x % 2 == (a + b) % 2 && y % 2 == (b + c) % 2
    ensures (x + c) % 2 == (a + y) % 2
  {
  }

  /** One bit of EOR, true also of two zeros. */
  lemma EorHalf(a: nat, b: nat)
    ensures Eor(a, b) == 2 * Eor(a / 2, b / 2) + (a + b) % 2
    ensures Eor(a, b) / 2 == Eor(a / 2, b / 2) && Eor(a, b) % 2 == (a + b) % 2
  {
  }

  lemma {:induction false} EorBelow(a: nat, b: nat, k: nat)
    requires a < Pow2(k) && b < Pow2(k)
    ensures Eor(a, b) < Pow2(k)
  {
    if k != 0 {
      EorBelow(a / 2, b / 2, k - 1);
      EorHalf(a, b);
    }
  }

  function Pow2(k: nat): nat {
    if k == 0 then 1 else 2 * Pow2(k - 1)
  }

  /** EOR of two bytes is a byte. */
  function EorByte(a: u8, b: u8): (r: u8)
    ensures r == Eor(a, b)
  {
    assert Pow2(8) == 256 by { assert Pow2(4) == 16; }
    EorBelow(a, b, 8);
    Eor(a, b)
  }

  lemma EorCancel(a: nat, b: nat, k: nat)
    ensures Eor(a, k) == Eor(b, k) <==> a == b
    ensures Eor(k, a) == Eor(k, b) <==> a == b
  {
    EorAssoc(a, k, k);
    EorAssoc(b, k, k);
    EorSelf(k);
    EorZero(a);
    EorZero(b);
    EorComm(a, k);
    EorComm(b, k);
  }

  // -------------------------------------------------------------- the record

  /** Eight bytes on the wire, field by field. */
  datatype Frame = Frame(len: u8, typ: u8, stamp: u8, b1: u8, b2: u8, b3: u8, crc: u8, chk: u8)

  /** The check byte as the sender accumulates it while the frame goes out. */
  function Check(stamp: u8, b1: u8, b2: u8, b3: u8, crc: u8): u8 {
    EorByte(EorByte(EorByte(EorByte(EorByte(stamp, IR_SEED), b1), b2), b3), crc)
  }

  function Record(stamp: u8, b1: u8, b2: u8, b3: u8, crc: u8): Frame {
    Frame(7, WT_INPUT, stamp, b1, b2, b3, crc, Check(stamp, b1, b2, b3, crc))
  }

  /** The check byte as the receiver recomputes it. */
  function Recheck(stamp: u8, b1: u8, b2: u8, b3: u8, crc: u8): u8 {
    EorByte(EorByte(EorByte(EorByte(EorByte(stamp, b1), b2), b3), crc), IR_SEED)
  }

  predicate Sound(f: Frame) {
    Recheck(f.stamp, f.b1, f.b2, f.b3, f.crc) == f.chk
  }

  /** Of a frame the receiver accepts, replacing any one of the six bytes that carry
      anything makes a frame it drops. */
  lemma CheckByteDetects(f: Frame, v: u8)
    requires Sound(f)
    ensures Sound(f.(stamp := v)) <==> v == f.stamp
    ensures Sound(f.(b1 := v)) <==> v == f.b1
    ensures Sound(f.(b2 := v)) <==> v == f.b2
    ensures Sound(f.(b3 := v)) <==> v == f.b3
    ensures Sound(f.(crc := v)) <==> v == f.crc
    ensures Sound(f.(chk := v)) <==> v == f.chk
  {
    var s1 := EorByte(f.stamp, f.b1);
    var s2 := EorByte(s1, f.b2);
    var s3 := EorByte(s2, f.b3);
    SameTail(EorByte(v, f.b1), s1, f.b2, f.b3, f.crc);
    EorCancel(v, f.stamp, f.b1);
    SameTail(EorByte(f.stamp, v), s1, f.b2, f.b3, f.crc);
    EorCancel(v, f.b1, f.stamp);
    SameTail2(EorByte(s1, v), s2, f.b3, f.crc);
    EorCancel(v, f.b2, s1);
    SameTail1(EorByte(s2, v), s3, f.crc);
    EorCancel(v, f.b3, s2);
    EorCancel(EorByte(s3, v), EorByte(s3, f.crc), IR_SEED);
    EorCancel(v, f.crc, s3);
  }

  lemma SameTail1(x: u8, y: u8, e: u8)
    ensures EorByte(EorByte(x, e), IR_SEED) == EorByte(EorByte(y, e), IR_SEED) <==> x == y
  {
    EorCancel(EorByte(x, e), EorByte(y, e), IR_SEED);
    EorCancel(x, y, e);
  }

  lemma SameTail2(x: u8, y: u8, d: u8, e: u8)
    ensures EorByte(EorByte(EorByte(x, d), e), IR_SEED) == EorByte(EorByte(EorByte(y, d), e), IR_SEED) <==> x == y
  {
    SameTail1(EorByte(x, d), EorByte(y, d), e);
    EorCancel(x, y, d);
  }

  lemma SameTail(x: u8, y: u8, c: u8, d: u8, e: u8)
    ensures EorByte(EorByte(EorByte(EorByte(x, c), d), e), IR_SEED) ==
            EorByte(EorByte(EorByte(EorByte(y, c), d), e), IR_SEED)
            <==> x == y
  {
    SameTail2(EorByte(x, c), EorByte(y, c), d, e);
    EorCancel(x, y, c);
  }

  /** Moving the last operand one place to the left. */
  lemma EorSwap(a: nat, b: nat, c: nat)
    ensures Eor(Eor(a, b), c) == Eor(Eor(a, c), b)
  {
    EorAssoc(a, b, c);
    EorAssoc(a, c, b);
    EorComm(b, c);
  }

  /** The sender salts first and the receiver last; they agree on every record. */
  lemma RecordsAreSound(stamp: u8, b1: u8, b2: u8, b3: u8, crc: u8)
    ensures Sound(Record(stamp, b1, b2, b3, crc))
  {
    var s1 := EorByte(stamp, b1);
    var s2 := EorByte(s1, b2);
    var s3 := EorByte(s2, b3);
    EorSwap(s3, crc, IR_SEED);
    EorSwap(s2, b3, IR_SEED);
    EorSwap(s1, b2, IR_SEED);
    EorSwap(stamp, b1, IR_SEED);
  }

  /** The salt: a reply window of zeros is no record. */
  lemma ZerosAreNoRecord(len: u8, typ: u8)
    ensures Check(0, 0, 0, 0, 0) == 0xA5
    ensures !Sound(Frame(len, typ, 0, 0, 0, 0, 0, 0))
  {
    hide Eor;
    EorZero(0);
    EorZero(0xA5);
    EorComm(0, 0xA5);
  }

  // -------------------------------------------------------------- the checksum

  /** The cells CBCRC covers, and GameOn, which the mixer reads. Opaque to the proofs
      beyond that: Combat's own state is a type parameter of the lockstep model. */
  datatype SimCells = SimCells(binvar: u8, gamvar: u8, direction: seq<u8>, tankY: seq<u8>, gameOn: u8)

  predicate WellFormed(s: SimCells) {
    |s.direction| == 6 && |s.tankY| == 4
  }

  /** `ASL A / ADC x`: the bit shifted out comes back as the carry, so this rotates
      left and then adds. */
  function Stir(a: u8, x: u8): u8 {
    (Rotate(a) + x) % 256
  }

  function Rotate(a: u8): u8 {
    if a < 128 then a * 2 else a * 2 - 256 + 1
  }

  /** Stirring from the highest index of `cells` down to index 0. */
  function StirDown(a: u8, cells: seq<u8>): u8
    decreases |cells|
  {
    if cells == [] then a else StirDown(Stir(a, cells[|cells| - 1]), cells[..|cells| - 1])
  }

  function Checksum(s: SimCells): u8 {
    StirDown(StirDown(Stir(s.binvar, s.gamvar), s.direction), s.tankY)
  }

  lemma StirInjective(a: u8, a': u8, x: u8)
    ensures Stir(a, x) == Stir(a', x) <==> a == a'
  {
    AddCancel(Rotate(a), Rotate(a'), x);
  }

  lemma StirSeesItsCell(a: u8, x: u8, x': u8)
    ensures Stir(a, x) == Stir(a, x') <==> x == x'
  {
    AddCancel(x, x', Rotate(a));
  }

  lemma AddCancel(a: u8, b: u8, k: u8)
    ensures (a + k) % 256 == (b + k) % 256 <==> a == b
  {
    assert (a + k) % 256 == if a + k < 256 then a + k else a + k - 256;
    assert (b + k) % 256 == if b + k < 256 then b + k else b + k - 256;
  }

  lemma {:induction false} StirDownInjective(a: u8, a': u8, cells: seq<u8>)
    ensures StirDown(a, cells) == StirDown(a', cells) <==> a == a'
    decreases |cells|
  {
    if cells != [] {
      var x := cells[|cells| - 1];
      StirInjective(a, a', x);
      StirDownInjective(Stir(a, x), Stir(a', x), cells[..|cells| - 1]);
    }
  }

  lemma {:induction false} StirDownSeesOneCell(a: u8, cells: seq<u8>, i: nat, v: u8)
    requires i < |cells|
    ensures StirDown(a, cells[i := v]) == StirDown(a, cells) <==> v == cells[i]
    decreases |cells|
  {
    var n := |cells| - 1;
    var x := cells[n];
    if i == n {
      assert cells[i := v][..n] == cells[..n];
      StirSeesItsCell(a, x, v);
      StirDownInjective(Stir(a, x), Stir(a, v), cells[..n]);
    } else {
      assert cells[i := v][..n] == cells[..n][i := v];
      StirDownSeesOneCell(Stir(a, x), cells[..n], i, v);
    }
  }

  /** No single covered cell can differ between two consoles without the checksum
      differing: the variation, a bearing, a missile lifetime or a Y position. */
  lemma ChecksumSeesEveryCell(s: SimCells, i: nat, v: u8)
    ensures Checksum(s.(binvar := v)) == Checksum(s) <==> v == s.binvar
    ensures Checksum(s.(gamvar := v)) == Checksum(s) <==> v == s.gamvar
    ensures i < |s.direction| ==>
      (Checksum(s.(direction := s.direction[i := v])) == Checksum(s) <==> v == s.direction[i])
    ensures i < |s.tankY| ==>
      (Checksum(s.(tankY := s.tankY[i := v])) == Checksum(s) <==> v == s.tankY[i])
  {
    var head := Stir(s.binvar, s.gamvar);
    var mid := StirDown(head, s.direction);
    StirInjective(s.binvar, v, s.gamvar);
    StirDownInjective(head, Stir(v, s.gamvar), s.direction);
    StirDownInjective(mid, StirDown(Stir(v, s.gamvar), s.direction), s.tankY);
    StirSeesItsCell(s.binvar, s.gamvar, v);
    StirDownInjective(head, Stir(s.binvar, v), s.direction);
    StirDownInjective(mid, StirDown(Stir(s.binvar, v), s.direction), s.tankY);
    if i < |s.direction| {
      StirDownSeesOneCell(head, s.direction, i, v);
      StirDownInjective(mid, StirDown(head, s.direction[i := v]), s.tankY);
    }
    if i < |s.tankY| {
      StirDownSeesOneCell(mid, s.tankY, i, v);
    }
  }
}
