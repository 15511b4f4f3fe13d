/** CBENT: eight independent facts packed into one byte of zero page.

    `Decode` is the reading of the byte; every in-place operation of the source is
    shown to change exactly the field it means to, the phase counter's discarded
    carry included. */
module Entry {

  datatype Flags = Flags(
    phase: int,     // bits 7-6: which frame of the tick this is
    rsy: bool,      // bit 5: a repair is armed
    left: bool,     // bit 4: the peer is gone
    ran: bool,      // bit 3: the last boundary ran its tick
    guest: bool,    // bit 2: this console drives the right tank
    net: bool,      // bit 1: a match is on
    warm: bool)     // bit 0: Combat's own START has run

  const CBE_PH: bv8 := 0xC0
  const CBE_RSY: bv8 := 0x20
  const CBE_LEFT: bv8 := 0x10
  const CBE_RAN: bv8 := 0x08
  const CBE_ROLE: bv8 := 0x04
  const CBE_NET: bv8 := 0x02
  const CBE_WARM: bv8 := 0x01

  function PhaseOf(e: bv8): (p: int)
    ensures 0 <= p < 4
    ensures p == 0 <==> e & CBE_PH == 0
  {
    if e & CBE_PH == 0 then 0
    else if e & CBE_PH == 0x40 then 1
    else if e & CBE_PH == 0x80 then 2
    else 3
  }

  function Decode(e: bv8): Flags {
    Flags(PhaseOf(e), e & CBE_RSY != 0, e & CBE_LEFT != 0, e & CBE_RAN != 0,
          e & CBE_ROLE != 0, e & CBE_NET != 0, e & CBE_WARM != 0)
  }

  /** The byte is nothing but its fields: equal readings are equal bytes. */
  lemma DecodeInjective(e: bv8, e': bv8)
    requires Decode(e) == Decode(e')
    ensures e == e'
  {
    assert e & CBE_PH == e' & CBE_PH;
    assert e == (e & 0xC0) | (e & 0x20) | (e & 0x10) | (e & 0x08) | (e & 0x04) | (e & 0x02) | (e & 0x01);
    assert e' == (e' & 0xC0) | (e' & 0x20) | (e' & 0x10) | (e' & 0x08) | (e' & 0x04) | (e' & 0x02) | (e' & 0x01);
  }

  // The BIT tests and the in-place updates, one per instruction pair of the source.

  method MidTick(e: bv8) returns (b: bool)
    ensures b <==> Decode(e).phase != 0
  {
    b := e & CBE_PH != 0;
  }

  method Ran(e: bv8) returns (b: bool)
    ensures b <==> Decode(e).ran
  {
    b := e & CBE_RAN != 0;
  }

  method Armed(e: bv8) returns (b: bool)
    ensures b <==> Decode(e).rsy
  {
    b := e & CBE_RSY != 0;
  }

  method Guest(e: bv8) returns (b: bool)
    ensures b <==> Decode(e).guest
  {
    b := e & CBE_ROLE != 0;
  }

  method Networked(e: bv8) returns (b: bool)
    ensures b <==> Decode(e).net
  {
    b := e & CBE_NET != 0;
  }

  /** CBPHI: adding $40 counts the phase modulo four; the carry out of bit 7 is lost
      and no flag below the phase is disturbed. */
  method BumpPhase(e: bv8) returns (r: bv8)
    ensures Decode(r) == Decode(e).(phase := (Decode(e).phase + 1) % 4)
  {
    r := e + 0x40;
  }

  method ClearRan(e: bv8) returns (r: bv8)
    ensures Decode(r) == Decode(e).(ran := false)
  {
    r := e & 0xF7;
  }

  method SetRan(e: bv8) returns (r: bv8)
    ensures Decode(r) == Decode(e).(ran := true)
  {
    r := e | CBE_RAN;
  }

  /** CBRSY: AND leaves just the bit in A, and EOR with the cell then clears it. */
  method ClearRsy(e: bv8) returns (r: bv8)
    requires Decode(e).rsy
    ensures Decode(r) == Decode(e).(rsy := false)
  {
    r := e & CBE_RSY;
    r := r ^ e;
  }

  method ArmRsy(e: bv8) returns (r: bv8)
    ensures Decode(r) == Decode(e).(rsy := true)
  {
    r := e | CBE_RSY;
  }

  method SetLeft(e: bv8) returns (r: bv8)
    ensures Decode(r) == Decode(e).(left := true)
  {
    r := e | CBE_LEFT;
  }

  /** The handover byte: the role bit of START, with NET and RAN set and nothing else. */
  method Handover(role: bv8) returns (r: bv8)
    ensures Decode(r) == Flags(0, false, false, true, role & 1 == 1, true, false)
  {
    r := role & 1;
    r := r << 1;
    r := r << 1;
    r := r | (CBE_NET | CBE_RAN);
  }
}
