/** The console's netcode in place: one object per console, one field per zero-page
    cell, one method per routine. Every method is proved to take the cells where the
    functions of Console.dfy say, so what is proved about those holds of this. */
module Machine {
  import opened Bytes
  import opened Entry
  import opened Wire
  import opened Ports
  import Checksums
  import opened Console

  const NS_IDLE: u8 := 0
  const NS_WISS: u8 := 2
  const NS_WACK: u8 := 4
  const NS_SISS: u8 := 6
  const NS_SACK: u8 := 8
  const NS_RISS: u8 := 10
  const NS_RACK: u8 := 12
  const NS_CONS: u8 := 14
  const NS_FAIL: u8 := 16

  function StateOf(n: u8): NState
    requires n % 2 == 0 && n <= NS_FAIL
  {
    if n == NS_IDLE then Idle else if n == NS_WISS then Wiss else if n == NS_WACK then Wack
    else if n == NS_SISS then Siss else if n == NS_SACK then Sack else if n == NS_RISS then Riss
    else if n == NS_RACK then Rack else if n == NS_CONS then Cons else Fail
  }

  /** CBMIX on cells held as numbers. */
  method MixedCells(w0: u8, w1: u8, gameOn: u8, swchb: u8) returns (joy: u8, trig0: u8, trig1: u8, swb: u8)
    ensures Shadows(joy, trig0, trig1, swb) == Mix(w0, w1, gameOn >= 128, swchb)
  {
    hide Mix, BitsOf, ByteOf;
    ByteOfBitsOf(w0);
    ByteOfBitsOf(w1);
    ByteOfBitsOf(swchb);
    var j, t0, t1, s := MixBytes(BitsOf(w0), BitsOf(w1), gameOn, BitsOf(swchb));
    joy, trig0, trig1, swb := ByteOf(j), ByteOf(t0), ByteOf(t1), ByteOf(s);
  }

  /** The check byte accumulating over a window. */
  function EorAll(a: u8, s: seq<u8>): u8 {
    if s == [] then a else EorByte(EorAll(a, s[..|s| - 1]), s[|s| - 1])
  }

  /** DEC of a byte cell. */
  function Decrement(x: u8): (r: u8)
    ensures r == Wrap(x - 1)
  {
    if x == 0 then 255 else x - 1
  }

  lemma CheckOfWindow(end: u8, w: seq<u8>)
    requires |w| == 3
    ensures EorAll(EorByte(end, IR_SEED), w) == EorByte(EorByte(EorByte(EorByte(end, IR_SEED), w[0]), w[1]), w[2])
  {
    var a := EorByte(end, IR_SEED);
    assert w[..|w| - 1] == w[..2] && w[..2][..1] == w[..1] && w[..1][..0] == [];
    assert EorAll(a, w[..1]) == EorByte(a, w[0]);
    assert EorAll(a, w[..2]) == EorByte(EorAll(a, w[..1]), w[1]);
  }

  /** A few consecutive cells of zero page, indexed. */
  class Ring {
    const cells: array<u8>
    ghost var Contents: seq<u8>

    ghost predicate Valid()
      reads this, cells
    {
      Contents == cells[..]
    }

    constructor (size: nat)
      ensures Valid() && fresh(cells) && cells.Length == size
    {
      cells := new u8[size];
      new;
      Contents := cells[..];
    }

    method Load(i: int) returns (b: u8)
      requires Valid() && 0 <= i < cells.Length
      ensures b == Contents[i]
    {
      b := cells[i];
    }

    method Store(i: int, b: u8)
      requires Valid() && 0 <= i < cells.Length
      modifies this, cells
      ensures Valid() && Contents == old(Contents)[i := b]
    {
      cells[i] := b;
      Contents := Contents[i := b];
    }
  }

  class Netcode {
    var ent: bv8
    var tick: u8
    var rwat: u8
    var crcv: u8
    var err: u8
    var nst: u8
    var rdn: u8
    var seqno: u8
    var adv: u8
    var joy: u8
    var trig0: u8
    var trig1: u8
    var swb: u8
    const ring: Ring
    const loc: Ring

    ghost predicate Valid()
      reads this, ring, loc, ring.cells, loc.cells
    {
      && ring.Valid() && loc.Valid() && ring.cells != loc.cells
      && ring.cells.Length == 8 && loc.cells.Length == 4
      && nst % 2 == 0 && nst <= NS_FAIL
    }

    ghost function View(): Cells
      reads this, ring, loc, ring.cells, loc.cells
      requires Valid()
      ensures Shaped(View())
    {
      Cells(Decode(ent), tick, rwat, ring.Contents, loc.Contents, crcv, err, StateOf(nst), rdn, seqno,
            adv != 0, Shadows(joy, trig0, trig1, swb))
    }

    constructor ()
      ensures Valid() && fresh(ring) && fresh(loc) && fresh(ring.cells) && fresh(loc.cells)
    {
      ent, tick, rwat, crcv, err, nst, rdn, seqno, adv := 0, 0, 0, 0, 0, NS_IDLE, 0, 0, 0;
      joy, trig0, trig1, swb := 0, 0, 0, 0;
      ring := new Ring(8);
      loc := new Ring(4);
    }

    /** CSZRING: one loop down over the two contiguous rings. */
    method SeedRings()
      requires Valid()
      modifies ring, ring.cells, loc, loc.cells
      ensures Valid()
      ensures ring.Contents == seq(8, _ => IW_IDLE) && loc.Contents == seq(4, _ => IW_IDLE)
    {
      var x := 11;
      while x >= 0
        invariant -1 <= x <= 11 && Valid()
        invariant forall k :: 0 <= k < 8 && x < k ==> ring.Contents[k] == IW_IDLE
        invariant forall k :: 0 <= k < 4 && x < k + 8 ==> loc.Contents[k] == IW_IDLE
      {
        if x >= 8 {
          loc.Store(x - 8, IW_IDLE);
        } else {
          ring.Store(x, IW_IDLE);
        }
        x := x - 1;
      }
    }

    /** The handover at the end of the session. */
    method Handover(role: bv8)
      requires Valid()
      modifies this, ring, ring.cells, loc, loc.cells
      ensures Valid()
      ensures View() == Start(role & 1 == 1, old(View()))
    {
      hide Decode;
      SeedRings();
      tick := 0xFF;
      err := 0;
      rwat := 0xFE;
      nst := NS_WISS;
      ent := Entry.Handover(role);
    }

    /** CBPHI. */
    method BumpPhase()
      requires Valid()
      modifies this`ent
      ensures Valid()
      ensures View() == old(View()).(ent := NextPhase(old(View()).ent))
    {
      hide Decode;
      ent := Entry.BumpPhase(ent);
    }

    /** CBCAP, ending in CBRSY: pack the ports, and press RESET once if armed. */
    method CaptureByte(hw: Hardware) returns (b: u8)
      requires Valid()
      modifies this`ent
      ensures Valid()
      ensures b == Captured(old(View()), hw)
      ensures View() == old(View()).(ent := old(View()).ent.(rsy := false))
    {
      hide Decode, Capture, Press, BitsOf, ByteOf;
      ByteOfBitsOf(hw.swcha);
      ByteOfBitsOf(hw.inpt4);
      ByteOfBitsOf(hw.inpt5);
      ByteOfBitsOf(hw.swchb);
      var a := PackPorts(BitsOf(hw.swcha), BitsOf(hw.inpt4), BitsOf(hw.inpt5), BitsOf(hw.swchb));
      var armed := Entry.Armed(ent);
      if armed {
        ent := Entry.ClearRsy(ent);
        a := PressReset(a);
      }
      b := ByteOf(a);
    }

    /** CBNT1A: the tick moves, and the state entering it is sampled. */
    method CountTick(sim: SimCells)
      requires Valid() && WellFormed(sim)
      modifies this`tick, this`ent, this`crcv
      ensures Valid()
      ensures View() == old(View()).(tick := Wrap(old(tick) + 1), crcv := Checksum(sim),
                                     ent := old(View()).ent.(ran := false))
    {
      hide Decode, Checksum;
      tick := if tick == 255 then 0 else tick + 1;
      ent := Entry.ClearRan(ent);
      crcv := Checksums.ChecksumLoop(sim);
    }

    /** The capture, for the tick CBD ahead. */
    method StoreCapture(hw: Hardware)
      requires Valid()
      modifies this`ent, loc, loc.cells
      ensures Valid()
      ensures View() == old(View()).(ent := old(View()).ent.(rsy := false),
                                     loc := old(View()).loc[Wrap(tick + CBD) % 4 := Captured(old(View()), hw)])
    {
      hide Decode, Captured;
      var b := CaptureByte(hw);
      loc.Store((tick + CBD) % 256 % 4, b);
    }

    /** CBNT1: what happens only on a boundary that follows a tick that ran. */
    method AdvanceTick(hw: Hardware, sim: SimCells)
      requires Valid() && WellFormed(sim)
      modifies this, loc, loc.cells
      ensures Valid()
      ensures View() == Advance(old(View()), hw, Checksum(sim))
    {
      hide Decode, Capture, Press, Checksum;
      var ran := Entry.Ran(ent);
      if ran {
        CountTick(sim);
        StoreCapture(hw);
      }
    }

    /** Both rings at the current tick, swapped for a guest: the host's byte first. */
    method LoadWires() returns (w0: u8, w1: u8)
      requires Valid()
      ensures (w0, w1) == Wires(View())
    {
      hide Decode;
      w0 := loc.Load(tick % 4);
      w1 := ring.Load(tick % 8);
      var guest := Entry.Guest(ent);
      if guest {
        w0, w1 := w1, w0;
      }
    }

    /** CBNT2 and CBMIX: read both rings, swap for a guest, fill the shadows. */
    method Run(hw: Hardware, gameOn: u8)
      requires Valid()
      modifies this
      ensures Valid()
      ensures View() == RunTick(old(View()), hw, gameOn >= 128)
    {
      hide Decode, Mix;
      ghost var c := View();
      err := err % 16;
      var w0, w1 := LoadWires();
      joy, trig0, trig1, swb := MixedCells(w0, w1, gameOn, hw.swchb);
      ghost var s := Shadows(joy, trig0, trig1, swb);
      ent := Entry.SetRan(ent);
      ghost var d := View();
      assert d == c.(err := c.err % 16, shadows := s, ent := c.ent.(ran := true));
      BumpPhase();
    }

    /** CBSTALL, with CBGONE. */
    method StallFrame()
      requires Valid()
      modifies this
      ensures Valid()
      ensures View() == Stall(old(View()))
    {
      hide Decode;
      adv := 0;
      if err >= 0xF0 {
        ent := Entry.SetLeft(ent);
      } else {
        err := err + 0x10;
      }
    }

    /** CBSHIM. */
    method ShimFrame(hw: Hardware, sim: SimCells)
      requires Valid() && WellFormed(sim)
      modifies this, loc, loc.cells
      ensures Valid()
      ensures View() == Shim(old(View()), hw, Checksum(sim), sim.gameOn >= 128)
    {
      hide Decode, Captured, Mix, Checksum;
      ghost var was := View();
      adv := 0xFF;
      ghost var c := View();
      assert c == was.(adv := true);
      var net := Entry.Networked(ent);
      if !net {
        joy, trig0, trig1, swb := hw.swcha, hw.inpt4, hw.inpt5, hw.swchb;
        return;
      }
      var mid := Entry.MidTick(ent);
      if mid {
        BumpPhase();
        return;
      }
      AdvanceTick(hw, sim);
      ghost var d := View();
      assert d == Advance(c, hw, Checksum(sim));
      if (rwat - tick) % 256 < 128 {
        Run(hw, sim.gameOn);
      } else {
        StallFrame();
      }
    }

    /** CBWW: the window, newest tick first, and the check byte accumulated on the way. */
    method Window(end: u8) returns (window: seq<u8>, w1: u8)
      requires Valid()
      ensures |window| == CBWIN
      ensures forall k :: 0 <= k < CBWIN ==> window[k] == loc.Contents[Wrap(end - k) % 4]
      ensures w1 == EorAll(EorByte(end, IR_SEED), window)
    {
      hide EorByte, Wrap;
      var w0: u8 := end;
      WrapOfByte(end);
      w1 := EorByte(end, IR_SEED);
      window := [];
      var x := CBWIN;
      while x > 0
        invariant 0 <= x <= CBWIN && |window| == CBWIN - x
        invariant w0 == Wrap(end - (CBWIN - x))
        invariant forall k :: 0 <= k < |window| ==> window[k] == loc.Contents[Wrap(end - k) % 4]
        invariant w1 == EorAll(EorByte(end, IR_SEED), window)
      {
        var b := loc.Load(w0 % 4);
        assert (window + [b])[..|window|] == window;
        SlotOfWrapped(end - (CBWIN - x), -1);
        window := window + [b];
        w1 := EorByte(w1, b);
        w0 := Decrement(w0);
        x := x - 1;
      }
    }

    /** CBSWISS: build the record and launch the WRITE. */
    method WriteRecord(m: Mail) returns (out: Frame)
      requires Valid() && nst == NS_WISS
      modifies this
      ensures Valid()
      ensures out == Outgoing(old(View()))
      ensures View() == Launch(old(View()), Wack, m)
    {
      hide Decode, EorByte;
      var end := (tick + CBD) % 256;
      var window, w1 := Window(end);
      CheckOfWindow(end, window);
      out := Frame(7, WT_INPUT, end, window[0], window[1], window[2], crcv, EorByte(w1, crcv));
      assert window[0] == loc.Contents[end % 4] by { SlotOfWrapped(end, 0); }
      assert out == Outgoing(View());
      LaunchTo(NS_WACK, m);
    }

    /** CBLNCH. */
    method LaunchTo(next: u8, m: Mail)
      requires Valid() && next % 2 == 0 && next <= NS_FAIL
      modifies this
      ensures Valid()
      ensures View() == Launch(old(View()), StateOf(next), m)
    {
      nst := next;
      seqno := (m.acks + 1) % 256;
      if seqno == 0 {
        seqno := 1;
      }
    }

    /** CBSFAIL. */
    method FailStep()
      requires Valid()
      modifies this
      ensures Valid()
      ensures View() == Failed(old(View()))
    {
      err := err - err % 16;
      err := err + FNEBAD;
      nst := NS_WISS;
    }

    /** CBSSACK: how many whole frames are waiting. */
    method StatusAnswered(m: Mail)
      requires Valid() && Readable(m) && nst == NS_SACK
      modifies this
      ensures Valid()
      ensures View() == NStep(old(View()), m)
    {
      hide Decode;
      if m.acks == seqno {
        if m.err != 0 || m.devst != 1 {
          FailStep();
        } else if m.avhi != 0 {
          rdn := 0xF8;
          nst := NS_RISS;
        } else if m.avlo - m.avlo % 8 == 0 {
          nst := NS_WISS;
        } else {
          rdn := m.avlo - m.avlo % 8;
          nst := NS_RISS;
        }
      }
    }

    /** CBSRACK: bytes to records. */
    method ReadAnswered(m: Mail)
      requires Valid() && Readable(m) && nst == NS_RACK
      modifies this
      ensures Valid()
      ensures View() == NStep(old(View()), m)
    {
      hide Decode;
      if m.acks == seqno {
        if m.err != 0 {
          FailStep();
        } else {
          rdn := m.rxlo / 8;
          nst := NS_CONS;
        }
      }
    }

    /** CBSCONS past its empty test: one record, at the cursor CBRDN has become. */
    method ConsumeRecord(f: Frame)
      requires Valid()
      modifies this, ring, ring.cells
      ensures Valid()
      ensures View() == Consume(old(View()), f)
    {
      hide Decode, Sound;
      if f.typ != WT_INPUT {
        if f.typ == WT_LEFT {
          err := 0xF0 + FNEPEER;
        }
        return;
      }
      if !Sound(f) {
        return;
      }
      ring.Store(f.stamp % 8, f.b1);
      ring.Store((f.stamp - 1) % 256 % 8, f.b2);
      ring.Store((f.stamp - 2) % 256 % 8, f.b3);
      assert ring.Contents == StoreWindow(old(ring.Contents), f);
      if (f.stamp - CBD) % 256 == tick {
        var armed := Entry.Armed(ent);
        if !armed && f.crc != crcv {
          ent := Entry.ArmRsy(ent);
        }
      }
      if (f.stamp - rwat) % 256 < 128 {
        rwat := f.stamp;
      }
    }

    /** CBSCONS: the next record of the reply, or back to the next WRITE. */
    method ConsumeStep(m: Mail)
      requires Valid() && Readable(m) && nst == NS_CONS
      modifies this, ring, ring.cells
      ensures Valid()
      ensures View() == NStep(old(View()), m)
    {
      hide Decode, Sound;
      if rdn == 0 {
        nst := NS_WISS;
      } else {
        rdn := rdn - 1;
        var y := rdn * 8 % 256;
        assert y / 8 == rdn % 32;
        ConsumeRecord(m.reply[y / 8]);
      }
    }

    /** CBNSTEP: dispatch on CBNST. `out` is what a WRITE launched, if this step did. */
    method Step(m: Mail) returns (wrote: bool, out: Frame)
      requires Valid() && Readable(m)
      modifies this, ring, ring.cells
      ensures Valid()
      ensures View() == NStep(old(View()), m)
      ensures wrote <==> old(View()).nst.Wiss?
      ensures wrote ==> out == Outgoing(old(View()))
    {
      hide Decode, Sound;
      wrote := nst == NS_WISS;
      out := Frame(0, 0, 0, 0, 0, 0, 0, 0);
      if nst == NS_WISS {
        out := WriteRecord(m);
      } else if nst == NS_SISS {
        LaunchTo(NS_SACK, m);
      } else if nst == NS_RISS {
        LaunchTo(NS_RACK, m);
      } else if nst == NS_WACK {
        if m.acks == seqno {
          if m.err != 0 { FailStep(); } else { nst := NS_SISS; }
        }
      } else if nst == NS_SACK {
        StatusAnswered(m);
      } else if nst == NS_RACK {
        ReadAnswered(m);
      } else if nst == NS_CONS {
        ConsumeStep(m);
      } else if nst == NS_FAIL {
        FailStep();
      }
    }
  }
}
