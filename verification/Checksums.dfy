/** CBCRC on the bits, with its carry, and what twelve cells come to. */
module Checksums {
  import opened Bytes
  import opened Wire
  import opened Ports

  // -------------------------------------------------------------- addition, bit by bit

  /** CLC and ADC. */
  function Add(e: bv8, f: bv8): bv8 {
    e + f
  }

  /** The carry out of each bit of a sum. */
  function Carries(e: bv8, f: bv8): bv8 {
    (e & f) | ((e | f) & ((e + f) ^ 0xFF))
  }

  predicate OneBit(mask: bv8) {
    mask == 0x80 || mask == 0x40 || mask == 0x20 || mask == 0x10
    || mask == 0x08 || mask == 0x04 || mask == 0x02 || mask == 0x01
  }

  lemma RippleCarry(e: bv8, f: bv8)
    ensures Add(e, f) == e ^ f ^ Asl(Carries(e, f))
    ensures Carries(e, f) == (e & f) | ((e ^ f) & Asl(Carries(e, f)))
  {
  }

  lemma FullAdder(e: bv8, f: bv8, c: bv8, s: bv8, k: bv8, mask: bv8)
    requires OneBit(mask) && s == e ^ f ^ c && k == (e & f) | ((e ^ f) & c)
    ensures Bit(e, mask) + Bit(f, mask) + Bit(c, mask) == Bit(s, mask) + 2 * Bit(k, mask)
  {
  }

  /** One column: two bits and the carry in make a bit and the carry out. */
  lemma Column(e: bv8, f: bv8, mask: bv8)
    requires OneBit(mask)
    ensures Bit(e, mask) + Bit(f, mask) + Bit(Asl(Carries(e, f)), mask)
         == Bit(Add(e, f), mask) + 2 * Bit(Carries(e, f), mask)
  {
    hide Carries, Bit, Add, Asl;
    RippleCarry(e, f);
    FullAdder(e, f, Asl(Carries(e, f)), Add(e, f), Carries(e, f), mask);
  }

  lemma CarryMovesUp(k: bv8)
    ensures Bit(Asl(k), 0x01) == 0 && Bit(Asl(k), 0x02) == Bit(k, 0x01) && Bit(Asl(k), 0x04) == Bit(k, 0x02)
    ensures Bit(Asl(k), 0x08) == Bit(k, 0x04) && Bit(Asl(k), 0x10) == Bit(k, 0x08) && Bit(Asl(k), 0x20) == Bit(k, 0x10)
    ensures Bit(Asl(k), 0x40) == Bit(k, 0x20) && Bit(Asl(k), 0x80) == Bit(k, 0x40)
  {
  }

  function High(e: bv8): int {
    Bit(e, 0x80) * 8 + Bit(e, 0x40) * 4 + Bit(e, 0x20) * 2 + Bit(e, 0x10)
  }

  function Low(e: bv8): int {
    Bit(e, 0x08) * 8 + Bit(e, 0x04) * 4 + Bit(e, 0x02) * 2 + Bit(e, 0x01)
  }

  /** Addition of bytes, the carry out of bit 7 lost. */
  lemma AddWraps(e: bv8, f: bv8)
    ensures ByteOf(e) + ByteOf(f) == ByteOf(Add(e, f)) + 256 * Bit(Carries(e, f), 0x80)
    ensures ByteOf(Add(e, f)) == (ByteOf(e) + ByteOf(f)) % 256
  {
    hide Bit, Carries, Add, Asl, ByteOf, High, Low;
    Nibbles(e);
    Nibbles(f);
    Nibbles(Add(e, f));
    LowColumns(e, f);
    HighColumns(e, f);
    CarryOnce(ByteOf(e) + ByteOf(f), ByteOf(Add(e, f)), Bit(Carries(e, f), 0x80));
  }

  lemma Nibbles(e: bv8)
    ensures ByteOf(e) == 16 * High(e) + Low(e)
  {
    hide Bit;
  }

  lemma CarryOnce(sum: int, byte: u8, carry: int)
    requires sum == byte + 256 * carry
    ensures sum % 256 == byte
  {
  }

  lemma LowColumns(e: bv8, f: bv8)
    ensures Low(e) + Low(f) == Low(Add(e, f)) + 16 * Bit(Carries(e, f), 0x08)
  {
    hide Bit, Carries, Add, Asl;
    Column(e, f, 0x08);
    Column(e, f, 0x04);
    Column(e, f, 0x02);
    Column(e, f, 0x01);
    CarryMovesUp(Carries(e, f));
  }

  lemma HighColumns(e: bv8, f: bv8)
    ensures High(e) + High(f) + Bit(Carries(e, f), 0x08) == High(Add(e, f)) + 16 * Bit(Carries(e, f), 0x80)
  {
    hide Bit, Carries, Add, Asl;
    Column(e, f, 0x80);
    Column(e, f, 0x40);
    Column(e, f, 0x20);
    Column(e, f, 0x10);
    CarryMovesUp(Carries(e, f));
  }

  // -------------------------------------------------------------- ASL and ADC

  /** ASL puts bit 7 in the carry. */
  function CarryOut(a: bv8): bv8 {
    a >> 7
  }

  /** Turned left, bit 7 coming back as bit 0, `k` times. */
  function Turn(e: bv8, k: nat): bv8 {
    if k == 0 then e else Turn(e, k - 1).RotateLeft(1)
  }

  lemma TurnMovesBits(a: bv8)
    ensures var r := a.RotateLeft(1);
      && Bit(r, 0x80) == Bit(a, 0x40) && Bit(r, 0x40) == Bit(a, 0x20) && Bit(r, 0x20) == Bit(a, 0x10)
      && Bit(r, 0x10) == Bit(a, 0x08) && Bit(r, 0x08) == Bit(a, 0x04) && Bit(r, 0x04) == Bit(a, 0x02)
      && Bit(r, 0x02) == Bit(a, 0x01) && Bit(r, 0x01) == Bit(a, 0x80)
  {
  }

  lemma ShiftTurns(a: bv8, x: bv8)
    ensures Asl(a) + x + CarryOut(a) == Add(a.RotateLeft(1), x)
  {
  }

  lemma TurnRotates(a: bv8)
    ensures ByteOf(a.RotateLeft(1)) == Rotate(ByteOf(a))
  {
    hide Bit, Rotate;
    TurnMovesBits(a);
    var top := Bit(a, 0x80);
    var rest := ByteOf(a) - top * 128;
    assert 0 <= rest < 128 && ByteOf(a.RotateLeft(1)) == rest * 2 + top;
    Doubled(ByteOf(a), top, rest);
  }

  lemma Doubled(a: u8, top: int, rest: int)
    requires 0 <= top < 2 && 0 <= rest < 128 && a == top * 128 + rest
    ensures Rotate(a) == rest * 2 + top
  {
  }

  /** One ASL and one ADC: the carry of the shift goes into the sum. */
  method ShiftAdd(a: bv8, x: bv8) returns (r: bv8)
    ensures ByteOf(r) == Stir(ByteOf(a), ByteOf(x))
  {
    var carry := CarryOut(a);
    r := Asl(a) + x + carry;
    hide ByteOf, Add, Asl, CarryOut;
    ShiftTurns(a, x);
    TurnRotates(a);
    AddWraps(a.RotateLeft(1), x);
  }

  /** DIRECTN[4] and MisLife[2] are contiguous, so one loop of six covers both. */
  method ChecksumLoop(s: SimCells) returns (crc: u8)
    requires WellFormed(s)
    ensures crc == Checksum(s)
  {
    hide BitsOf, ByteOf, Stir;
    ByteOfBitsOf(s.binvar);
    ByteOfBitsOf(s.gamvar);
    var a := ShiftAdd(BitsOf(s.binvar), BitsOf(s.gamvar));
    var x := 5;
    assert s.direction[..6] == s.direction;
    while x >= 0
      invariant -1 <= x <= 5
      invariant StirDown(ByteOf(a), s.direction[..x + 1]) == StirDown(Stir(s.binvar, s.gamvar), s.direction)
    {
      assert s.direction[..x + 1][..x] == s.direction[..x];
      ByteOfBitsOf(s.direction[x]);
      a := ShiftAdd(a, BitsOf(s.direction[x]));
      x := x - 1;
    }
    x := 3;
    assert s.tankY[..4] == s.tankY;
    while x >= 0
      invariant -1 <= x <= 3
      invariant StirDown(ByteOf(a), s.tankY[..x + 1]) == Checksum(s)
    {
      assert s.tankY[..x + 1][..x] == s.tankY[..x];
      ByteOfBitsOf(s.tankY[x]);
      a := ShiftAdd(a, BitsOf(s.tankY[x]));
      x := x - 1;
    }
    crc := ByteOf(a);
  }

  // -------------------------------------------------------------- what it computes

  /** The twelve cells, each at the index that counts the shifts that follow it. */
  function CellsOf(s: SimCells): (cells: seq<u8>)
    requires WellFormed(s)
    ensures |cells| == 12
  {
    s.tankY + s.direction + [s.gamvar, s.binvar]
  }

  lemma {:induction false} StirDownJoins(a: u8, low: seq<u8>, high: seq<u8>)
    ensures StirDown(a, low + high) == StirDown(StirDown(a, high), low)
    decreases |high|
  {
    if high == [] {
      assert low + high == low;
    } else {
      var n := |high| - 1;
      assert (low + high)[..|low| + n] == low + high[..n];
      StirDownJoins(Stir(a, high[n]), low, high[..n]);
    }
  }

  lemma ChecksumOfCells(s: SimCells)
    requires WellFormed(s)
    ensures Checksum(s) == StirDown(0, CellsOf(s))
  {
    hide Stir;
    var pair := [s.gamvar, s.binvar];
    assert StirDown(0, pair) == Stir(s.binvar, s.gamvar) by {
      assert pair[..1] == [s.gamvar] && [s.gamvar][..0] == [];
      assert Stir(0, s.binvar) == s.binvar by { StirZero(s.binvar); }
      assert StirDown(Stir(0, s.binvar), [s.gamvar]) == Stir(s.binvar, s.gamvar);
    }
    StirDownJoins(0, s.tankY + s.direction, pair);
    StirDownJoins(StirDown(0, pair), s.tankY, s.direction);
  }

  lemma StirZero(x: u8)
    ensures Stir(0, x) == x && Stir(x, 0) == Rotate(x)
  {
  }

  /** A byte turned left, in bits. */
  function Turned(v: u8, k: nat): u8 {
    ByteOf(Turn(BitsOf(v), k))
  }

  lemma TurnedMore(v: u8, k: nat)
    ensures Turned(v, 0) == v && Turned(v, k + 1) == Rotate(Turned(v, k))
  {
    hide ByteOf, BitsOf, Rotate;
    ByteOfBitsOf(v);
    TurnRotates(Turn(BitsOf(v), k));
  }

  predicate Zeros(cells: seq<u8>) {
    forall i :: 0 <= i < |cells| ==> cells[i] == 0
  }

  lemma {:induction false} ZerosTurn(v: u8, k: nat, cells: seq<u8>)
    requires Zeros(cells)
    ensures StirDown(Turned(v, k), cells) == Turned(v, k + |cells|)
    decreases |cells|
  {
    hide Turned, Stir, Rotate;
    if cells != [] {
      StirZero(Turned(v, k));
      TurnedMore(v, k);
      ZerosTurn(v, k + 1, cells[..|cells| - 1]);
    }
  }

  lemma {:induction false} ZeroStays(cells: seq<u8>)
    requires Zeros(cells)
    ensures StirDown(0, cells) == 0
    decreases |cells|
  {
    if cells != [] {
      ZeroStays(cells[..|cells| - 1]);
    }
  }

  /** Above some index nothing, then one cell, then whatever is below it. */
  lemma OnlyBelow(cells: seq<u8>, j: nat)
    requires j < |cells| && Zeros(cells[j + 1..])
    ensures StirDown(0, cells) == StirDown(cells[j], cells[..j])
  {
    hide Stir;
    assert cells == cells[..j + 1] + cells[j + 1..];
    StirDownJoins(0, cells[..j + 1], cells[j + 1..]);
    ZeroStays(cells[j + 1..]);
    assert cells[..j + 1][..j] == cells[..j];
    StirZero(cells[j]);
  }

  /** ONE CELL. The checksum of a state whose only nonzero cell is the one followed by j shifts
      is that cell turned left j times: BINvar eleven, GAMVAR ten, DIRECTN[i] four and i,
      TankY0[i] i times. */
  lemma OneCellTurns(s: SimCells, j: nat)
    requires WellFormed(s) && j < 12 && Zeros(CellsOf(s)[..j]) && Zeros(CellsOf(s)[j + 1..])
    ensures Checksum(s) == ByteOf(Turn(BitsOf(CellsOf(s)[j]), j))
  {
    hide Stir, ByteOf, BitsOf, Checksum, Turn;
    var cells := CellsOf(s);
    ChecksumOfCells(s);
    OnlyBelow(cells, j);
    TurnedMore(cells[j], 0);
    ZerosTurn(cells[j], 0, cells[..j]);
  }

  /** Two cells exchanged. */
  predicate Exchanged(cells: seq<u8>, cells': seq<u8>, i: nat)
    requires i + 1 < |cells|
  {
    cells' == cells[i := cells[i + 1]][i + 1 := cells[i]]
  }

  lemma RotateGap(x: u8, y: u8)
    ensures Stir(y, x) == Stir(x, y) <==> x == y || (x == 0 && y == 255) || (x == 255 && y == 0)
  {
  }

  /** ORDER MATTERS. Where the cells stirred in before them are zero, exchanging two cells next
      to each other is seen, whatever follows, unless they are equal or are 0 and 255. */
  lemma ExchangeIsSeen(s: SimCells, s': SimCells, i: nat)
    requires WellFormed(s) && WellFormed(s') && i < 11 && Zeros(CellsOf(s)[i + 2..])
    requires Exchanged(CellsOf(s), CellsOf(s'), i)
    ensures var x, y := CellsOf(s)[i], CellsOf(s)[i + 1];
      Checksum(s) == Checksum(s') <==> x == y || (x == 0 && y == 255) || (x == 255 && y == 0)
  {
    hide Stir, Checksum, CellsOf;
    ChecksumOfCells(s);
    ChecksumOfCells(s');
    var cells, cells' := CellsOf(s), CellsOf(s');
    assert cells'[i + 2..] == cells[i + 2..] && cells'[..i] == cells[..i];
    OnlyBelow(cells, i + 1);
    OnlyBelow(cells', i + 1);
    assert cells[..i + 1][..i] == cells[..i] && cells'[..i + 1][..i] == cells'[..i];
    var x, y := cells[i], cells[i + 1];
    RotateGap(x, y);
    StirDownInjective(Stir(y, x), Stir(x, y), cells[..i]);
  }
}
