/** How a console decides that its peer is gone. */
module Watchdog {
  import opened Bytes
  import opened Entry
  import opened Wire
  import opened Console
  import opened Lockstep
  import opened Agreement

  /** Waiting at the boundary of a tick already counted, with nothing to run. */
  predicate Stuck(c: Cells) {
    Shaped(c) && Boundary(c) && !c.ent.ran && !GateOpen(c)
  }

  /** `k` frames one after another, the ports reading anything. */
  function Frames(c: Cells, k: nat, hw: Hardware, crc: u8, on: bool): Cells
    requires Shaped(c)
  {
    if k == 0 then c else Shim(Frames(c, k - 1, hw, crc, on), hw, crc, on)
  }

  /** The stall count is the high nibble of CBERR, one a frame: k stalled frames hand
      over to the boot bank exactly when they overflow the nibble, and until then change
      nothing else. From a tick that ran, that is the sixteenth stalled frame. */
  lemma {:induction false} StalledFramesCount(c: Cells, k: nat, hw: Hardware, crc: u8, on: bool)
    requires Stuck(c) && !c.ent.left && k <= 16 - c.err / 16
    ensures var d := Frames(c, k, hw, crc, on);
      && (d.ent.left <==> k == 16 - c.err / 16)
      && (!d.ent.left ==> d.err == c.err + 16 * k)
      && (k > 0 ==> !d.adv)
      && d == c.(adv := d.adv, err := d.err, ent := d.ent) && d.ent == c.ent.(left := d.ent.left)
    decreases k
  {
    if k > 0 {
      StalledFramesCount(c, k - 1, hw, crc, on);
    }
  }

  /** A tick that runs clears the count, so no run of stalls broken by one ever adds up. */
  lemma RunningClears(c: Cells, hw: Hardware, crc: u8, on: bool)
    requires Shaped(c) && Boundary(c)
    ensures var d := Shim(c, hw, crc, on);
      d.adv ==> d.err == c.err % 16 && d.ent.left == c.ent.left && 16 - d.err / 16 == 16
  {
    hide Mix, Captured;
  }

  /** PEER_LEFT saturates the counter, yet the next boundary gives the peer up exactly if
      its gate is closed: a console still holding the peer's input runs the tick instead,
      clears the saturated count and starts over. */
  lemma CleanLeaveIsInstantIff(c: Cells, f: Wire.Frame, hw: Hardware, crc: u8, on: bool)
    requires Shaped(c) && Boundary(c) && !c.ent.left && f.typ == WT_LEFT
    ensures var d := Consume(c, f);
      && Shaped(d)
      && (Shim(d, hw, crc, on).ent.left <==> !GateOpen(Advance(c.(adv := true), hw, crc)))
      && (GateOpen(Advance(c.(adv := true), hw, crc)) ==> Shim(d, hw, crc, on).err == FNEPEER)
  {
    hide Mix, Captured, Sound;
  }

  // -------------------------------------------------------------- the transport beside it

  /** An answer that is a refusal: an error code, or a STATUS of a socket that is not live. */
  predicate Refused(c: Cells, m: Mail) {
    Acked(c, m)
    && (((c.nst.Wack? || c.nst.Sack? || c.nst.Rack?) && m.err != 0) || (c.nst.Sack? && m.devst != 1))
  }

  /** This step takes a PEER_LEFT out of the reply window. */
  predicate TakesFarewell(c: Cells, m: Mail)
    requires Readable(m)
  {
    c.nst.Cons? && c.rdn > 0 && m.reply[Cursor(c)].typ == WT_LEFT
  }

  /** A REFUSAL COSTS NOTHING ELSE. A refused transaction leaves its reason beside the stall
      count, which it does not touch, and goes round again from the WRITE; a step that is not
      refused leaves the whole byte alone, unless it takes the peer's farewell. */
  lemma RefusalGoesRound(c: Cells, m: Mail)
    requires Shaped(c) && Readable(m) && !c.nst.Fail?
    ensures var d := NStep(c, m);
      && (Refused(c, m) ==> d == c.(nst := Wiss, err := d.err) && d.err / 16 == c.err / 16 && d.err % 16 == 2)
      && (!Refused(c, m) && !TakesFarewell(c, m) ==> d.err == c.err)
      && (TakesFarewell(c, m) ==> d == c.(rdn := c.rdn - 1, err := 0xF3))
  {
    hide Sound, Arms, StoreWindow;
    assert c.err - c.err % 16 == c.err / 16 * 16;
  }

  /** AN OLD ANSWER IS NOT TAKEN. After a launch the machine does nothing at all while the
      cartridge shows the sequence number it showed before. */
  lemma OldAnswerIsNotTaken(c: Cells, m: Mail, m': Mail)
    requires Shaped(c) && Readable(m) && Readable(m') && m'.acks == m.acks
    requires c.nst.Wiss? || c.nst.Siss? || c.nst.Riss?
    ensures var d := NStep(c, m); d.nst != c.nst && NStep(d, m') == d
  {
  }

  // -------------------------------------------------------------- over whole runs

  /** No step of `a` in this run takes a farewell. */
  ghost predicate NoFarewell<S(!new)>(g: Game<S>, s: Sys<S>, mvs: seq<Move<S>>)
    requires Legal(g, s, mvs, true)
    decreases |mvs|
  {
    mvs == [] ||
    ((mvs[0].byA && mvs[0].act.Micro? ==> !TakesFarewell(s.a.c, mvs[0].act.m))
     && NoFarewell(g, Step(g, s, mvs[0]), mvs[1..]))
  }

  /** The boundaries at which `a` has stalled since the last one it ran at, `k` of them before
      the run. */
  ghost function InARow<S(!new)>(g: Game<S>, s: Sys<S>, mvs: seq<Move<S>>, k: nat): nat
    requires Legal(g, s, mvs, true)
    decreases |mvs|
  {
    if mvs == [] then k
    else
      var t := Step(g, s, mvs[0]);
      InARow(g, t, mvs[1..],
             if !(mvs[0].byA && mvs[0].act.Frame? && Boundary(s.a.c)) then k
             else if |t.a.ran| > |s.a.ran| then 0 else k + 1)
  }

  /** One frame, as the stall counter sees it. */
  lemma FrameCounts<S(!new)>(g: Game<S>, n: Node<S>, hw: Hardware)
    requires Shaped(n.c) && !n.c.ent.left
    ensures var n' := Video(g, n, hw);
      if !Boundary(n.c) then n'.c.err == n.c.err && !n'.c.ent.left && n'.ran == n.ran
      else if |n'.ran| > |n.ran| then n'.c.err == n.c.err % 16 && !n'.c.ent.left
      else if n.c.err / 16 == 15 then n'.c.ent.left && n'.off
      else n'.c.err / 16 == n.c.err / 16 + 1 && n'.c.err % 16 == n.c.err % 16 && !n'.c.ent.left
  {
    hide Checksum, Mix, Captured;
    assert n.c.err >= 0xF0 <==> n.c.err / 16 == 15;
  }

  lemma OtherCounts<S(!new)>(g: Game<S>, s: Sys<S>, mv: Move<S>)
    requires Enabled(s, mv) && !(mv.byA && mv.act.Frame?) && !s.a.c.nst.Fail?
    requires mv.byA && mv.act.Micro? ==> !TakesFarewell(s.a.c, mv.act.m)
    ensures var t := Step(g, s, mv);
      && t.a.c.err / 16 == s.a.c.err / 16 && t.a.c.ent.left == s.a.c.ent.left && t.a.ran == s.a.ran
      && !t.a.c.nst.Fail? && (s.a.off ==> t.a.off)
  {
    hide Sound, Arms, StoreWindow, Outgoing;
    if mv.byA && mv.act.Micro? {
      RefusalGoesRound(s.a.c, mv.act.m);
    }
  }

  /** THE COUNT IS THE STALLS IN A ROW. Over any run in which the peer says no farewell, as long
      as the console is on, its counter is the number of boundaries at which it has stalled
      since it last ran, whatever its transport did in between; so it gives its peer up at the
      sixteenth in a row and never before. */
  lemma {:induction false} CountIsStallsInARow<S(!new)>(g: Game<S>, s: Sys<S>, mvs: seq<Move<S>>, hw: Hardware)
    requires Legal(g, s, mvs, true) && NoFarewell(g, s, mvs) && !After(g, s, mvs, true).a.off
    requires Shaped(s.a.c) && !s.a.c.nst.Fail? && (s.a.c.ent.left ==> s.a.off)
    ensures var t := After(g, s, mvs, true); var k := InARow(g, s, mvs, s.a.c.err / 16);
      && Shaped(t.a.c) && t.a.c.err / 16 == k < 16
      && (Video(g, t.a, hw).c.ent.left <==> Boundary(t.a.c) && |Video(g, t.a, hw).ran| == |t.a.ran| && k == 15)
    decreases |mvs|
  {
    hide Video, NStep, Net, Possible, Timely, TakesFarewell;
    if mvs == [] {
      RanGrows(g, s.a, hw);
      FrameCounts(g, s.a, hw);
    } else {
      OffStays(g, s, mvs);
      var t := Step(g, s, mvs[0]);
      if mvs[0].byA && mvs[0].act.Frame? {
        FrameCounts(g, s.a, mvs[0].act.hw);
        FrameShape(g, s.a, mvs[0].act.hw);
      } else {
        OtherCounts(g, s, mvs[0]);
        OtherShape(g, s, mvs[0]);
      }
      OffStays(g, t, mvs[1..]);
      CountIsStallsInARow(g, t, mvs[1..], hw);
    }
  }

  /** So, from the handover, the sixteenth stall in a row is the one that gives the peer up. */
  lemma SixteenthStallGivesUp<S(!new)>(g: Game<S>, junkA: Cells, junkB: Cells, mvs: seq<Move<S>>, hw: Hardware)
    requires var s := Begin(g, junkA, junkB);
      Legal(g, s, mvs, true) && NoFarewell(g, s, mvs) && !After(g, s, mvs, true).a.off
    ensures var s := Begin(g, junkA, junkB); var t := After(g, s, mvs, true).a;
      && Shaped(t.c)
      && (Video(g, t, hw).c.ent.left
          <==> Boundary(t.c) && |Video(g, t, hw).ran| == |t.ran| && InARow(g, s, mvs, 0) == 15)
  {
    hide Video;
    CountIsStallsInARow(g, Begin(g, junkA, junkB), mvs, hw);
  }

  lemma RanGrows<S(!new)>(g: Game<S>, n: Node<S>, hw: Hardware)
    requires Shaped(n.c)
    ensures |n.ran| <= |Video(g, n, hw).ran| <= |n.ran| + 1
  {
    hide Checksum, Mix, Captured;
  }

  lemma FrameShape<S(!new)>(g: Game<S>, n: Node<S>, hw: Hardware)
    requires Shaped(n.c)
    ensures var n' := Video(g, n, hw);
      Shaped(n'.c) && n'.c.nst == n.c.nst && (n.off || n'.c.ent.left ==> n'.off)
  {
    hide Checksum, Mix, Captured;
  }

  lemma OtherShape<S(!new)>(g: Game<S>, s: Sys<S>, mv: Move<S>)
    requires Enabled(s, mv) && !(mv.byA && mv.act.Frame?) && Shaped(s.a.c)
    ensures Shaped(Step(g, s, mv).a.c)
  {
    hide NStep, Video;
  }

  /** A console that is off stays off. */
  lemma {:induction false} OffStays<S(!new)>(g: Game<S>, s: Sys<S>, mvs: seq<Move<S>>)
    requires Legal(g, s, mvs, true)
    ensures s.a.off ==> After(g, s, mvs, true).a.off
    decreases |mvs|
  {
    hide NStep, Shim, Advance, Timely;
    if mvs != [] {
      OffStays(g, Step(g, s, mvs[0]), mvs[1..]);
    }
  }
}
