/** A video frame keeps the lockstep invariant. */
module FrameProofs {
  import opened Bytes
  import opened Entry
  import opened Wire
  import opened Console
  import opened Lockstep

  lemma OwnShape<S(!new)>(g: Game<S>, n: Node<S>)
    requires Own(g, n)
    ensures Shaped(n.c) && |n.enter| == |n.caps| - 2 >= 0
  {
  }

  /** What the invariant says about how far the two consoles are apart. */
  lemma Skew<S(!new)>(g: Game<S>, x: Node<S>, y: Node<S>, qx: seq<Packet>, qy: seq<Packet>)
    requires Half(g, x, y, qx) && Half(g, y, x, qy)
    ensures Last(x) <= Tick(x) + 2 && Last(y) <= Tick(y) + 2
    ensures -3 <= Tick(x) - Tick(y) <= 3
    ensures -2 <= x.high - Tick(x) <= 5 && Base(x) - Tick(x) <= 5
    ensures Tick(x) + CBD <= Last(x) + 6
  {
  }

  /** CBNT1 in unbounded terms: tick, ring slot and sample all move together. */
  lemma AdvanceMeans<S(!new)>(g: Game<S>, n: Node<S>, hw: Hardware)
    requires Own(g, n) && n.c.ent.phase == 0
    ensures var d := Advance(n.c.(adv := true), hw, Crc(g, n.sim));
      var n' := Video(g, n, hw);
      && d.tick == Wrap(Tick(n'))
      && Tick(n') == Tick(n) + (if n.c.ent.ran then 1 else 0) >= 0
      && (forall u :: Tick(n') <= u <= Tick(n') + 2 ==> d.loc[u % 4] == n'.caps[u])
      && d.ring == n.c.ring && d.rwat == n.c.rwat && d.ent.guest == n.c.ent.guest
      && d.crcv == Crc(g, n'.enter[Tick(n')])
  {
    var t := Tick(n);
    var n' := Video(g, n, hw);
    hide Checksum, Captured, Capture;
    if n.c.ent.ran {
      SlotOfWrapped(t, 1);
      SlotOfWrapped(t + 1, CBD);
      assert Wrap(Wrap(Wrap(t) + 1) + CBD) % 4 == (t + 3) % 4;
      forall u | t + 1 <= u <= t + 3
        ensures Advance(n.c.(adv := true), hw, Crc(g, n.sim)).loc[u % 4] == n'.caps[u]
      {
        LocalSlots(u, t + 3);
      }
    }
  }

  lemma VideoOwn<S(!new)>(g: Game<S>, n: Node<S>, hw: Hardware)
    requires Own(g, n)
    ensures Own(g, Video(g, n, hw))
  {
    hide Checksum, Captured, Capture, Mix;
    if n.c.ent.phase == 0 {
      AdvanceMeans(g, n, hw);
    }
  }

  lemma VideoLedger<S(!new)>(g: Game<S>, n: Node<S>, hw: Hardware)
    requires Own(g, n) && Ledger(n)
    ensures Ledger(Video(g, n, hw))
  {
    hide Checksum, Capture, Press, Mix;
  }

  /** The gate opens exactly when the peer's byte for the tick has been received: the
      8-bit signed comparison decides the unbounded one. */
  lemma GateDecides<S(!new)>(g: Game<S>, x: Node<S>, y: Node<S>, qx: seq<Packet>, qy: seq<Packet>, hw: Hardware)
    requires Half(g, x, y, qx) && Half(g, y, x, qy)
    requires x.c.ent.phase == 0
    ensures var d := Advance(x.c.(adv := true), hw, Crc(g, x.sim));
      GateOpen(d) <==> x.high >= Tick(Video(g, x, hw))
  {
    Skew(g, x, y, qx, qy);
    AdvanceMeans(g, x, hw);
    SignedCompare(x.high, Tick(Video(g, x, hw)));
  }

  /** The bytes the gate fetches are the two histories' bytes for the tick. */
  lemma WiresAreAgreed<S(!new)>(g: Game<S>, x: Node<S>, y: Node<S>, qx: seq<Packet>, qy: seq<Packet>, hw: Hardware)
    requires Half(g, x, y, qx) && Half(g, y, x, qy)
    requires x.c.ent.phase == 0
    requires x.high >= Tick(Video(g, x, hw))
    ensures var x' := Video(g, x, hw); var t := Tick(x');
      0 <= t < |y.caps| && Wires(Advance(x.c.(adv := true), hw, Crc(g, x.sim))) == Agreed(x', y, t)
  {
    hide Checksum, Capture, Captured, Mix, Own, Hears, SentOk, Ledger, RanAgreed, AlarmsReal, Sized, GateOpen;
    OwnShape(g, x);
    OwnShape(g, y);
    Skew(g, x, y, qx, qy);
    AdvanceMeans(g, x, hw);
    var t := Tick(Video(g, x, hw));
    SlotOfWrapped(t, 0);
    RingHolds(g, x, y, qx, t);
  }

  /** A received tick's slot holds the peer's capture for it. */
  lemma RingHolds<S(!new)>(g: Game<S>, x: Node<S>, y: Node<S>, q: seq<Packet>, u: int)
    requires |y.enter| == |y.caps| - 2 >= 0 && Hears(g, x, y, q)
    requires 0 <= u && Base(x) - 7 <= u <= Base(x)
    ensures u < |y.caps| && x.c.ring[u % 8] == y.caps[u]
  {
  }

  /** A frame leaves everything the transport looks at alone. */
  lemma VideoIsNoTransport<S(!new)>(g: Game<S>, x: Node<S>, hw: Hardware)
    requires Shaped(x.c)
    ensures var x' := Video(g, x, hw);
      && Pending(x') == Pending(x) && x'.window == x.window && x'.c.nst == x.c.nst && x'.c.rdn == x.c.rdn
      && x'.high == x.high && x'.c.ring == x.c.ring && x'.sent == x.sent && x'.arms == x.arms
      && x'.c.ent.guest == x.c.ent.guest && x.caps <= x'.caps && x.enter <= x'.enter
  {
    hide Checksum, Capture, Captured, Mix;
  }

  lemma VideoHears<S(!new)>(g: Game<S>, x: Node<S>, y: Node<S>, qx: seq<Packet>, qy: seq<Packet>, hw: Hardware)
    requires Half(g, x, y, qx) && Half(g, y, x, qy)
    ensures Hears(g, Video(g, x, hw), y, qx) && Sized(Video(g, x, hw), qx)
  {
    hide Checksum, Captured, Mix, Genuine, SentOk, Ledger, RanAgreed, AlarmsReal, Record;
    var x' := Video(g, x, hw);
    VideoOwn(g, x, hw);
    VideoIsNoTransport(g, x, hw);
    if x.c.ent.phase == 0 {
      GateDecides(g, x, y, qx, qy, hw);
      AdvanceMeans(g, x, hw);
    }
  }

  lemma VideoRanAgreed<S(!new)>(g: Game<S>, x: Node<S>, y: Node<S>, qx: seq<Packet>, qy: seq<Packet>, hw: Hardware)
    requires Half(g, x, y, qx) && Half(g, y, x, qy)
    ensures RanAgreed(Video(g, x, hw), y)
  {
    hide Checksum, Captured, Mix, Hears, SentOk, Ledger, AlarmsReal, Sized;
    var x' := Video(g, x, hw);
    VideoOwn(g, x, hw);
    VideoIsNoTransport(g, x, hw);
    if x.c.ent.phase == 0 {
      GateDecides(g, x, y, qx, qy, hw);
      AdvanceMeans(g, x, hw);
      if x.high >= Tick(x') {
        WiresAreAgreed(g, x, y, qx, qy, hw);
      }
    }
  }

  /** A packet stays genuine while its sender's history grows. */
  lemma GenuineGrows<S(!new)>(g: Game<S>, y: Node<S>, y': Node<S>, p: Packet)
    requires |y.enter| == |y.caps| - 2 && |y'.enter| == |y'.caps| - 2
    requires y.caps <= y'.caps && y.enter <= y'.enter
    requires Genuine(g, y, p)
    ensures Genuine(g, y', p)
  {
    hide Checksum, Record;
  }

  /** What the peer holds of a console survives that console's history growing. */
  lemma HeardGrows<S(!new)>(g: Game<S>, x: Node<S>, x': Node<S>, y: Node<S>, qy: seq<Packet>)
    requires |x.enter| == |x.caps| - 2 >= 0 && |x'.enter| == |x'.caps| - 2
    requires x.caps <= x'.caps && x.enter <= x'.enter && x'.sent == x.sent
    requires Hears(g, y, x, qy)
    ensures Hears(g, y, x', qy)
  {
    hide Genuine, Record, Checksum;
    forall p | Genuine(g, x, p) ensures Genuine(g, x', p) {
      GenuineGrows(g, x, x', p);
    }
  }

  lemma SentGrows<S(!new)>(g: Game<S>, x: Node<S>, x': Node<S>)
    requires |x.enter| == |x.caps| - 2 >= 0 && |x'.enter| == |x'.caps| - 2
    requires x.caps <= x'.caps && x.enter <= x'.enter && x'.sent == x.sent
    requires SentOk(g, x)
    ensures SentOk(g, x')
  {
    hide Genuine, Record, Checksum;
    forall p | Genuine(g, x, p) ensures Genuine(g, x', p) {
      GenuineGrows(g, x, x', p);
    }
  }

  lemma LogsGrow<S(!new)>(g: Game<S>, x: Node<S>, x': Node<S>, y: Node<S>)
    requires x.caps <= x'.caps && x.enter <= x'.enter && x'.c.ent.guest == x.c.ent.guest
    requires RanAgreed(y, x) && AlarmsReal(g, y, x)
    ensures RanAgreed(y, x') && AlarmsReal(g, y, x')
  {
    hide Checksum;
  }

  lemma VideoAlarms<S(!new)>(g: Game<S>, x: Node<S>, y: Node<S>, hw: Hardware)
    requires Shaped(x.c) && AlarmsReal(g, x, y)
    ensures AlarmsReal(g, Video(g, x, hw), y)
  {
    hide Checksum, Captured, Shim;
  }

  lemma VideoKeeps<S(!new)>(g: Game<S>, x: Node<S>, y: Node<S>, qx: seq<Packet>, qy: seq<Packet>, hw: Hardware)
    requires Half(g, x, y, qx) && Half(g, y, x, qy)
    ensures Half(g, Video(g, x, hw), y, qx) && Half(g, y, Video(g, x, hw), qy)
  {
    hide Checksum, Shim, Advance, Captured, Hears, RanAgreed, SentOk, AlarmsReal, Ledger, Genuine, Sized, Video;
    var x' := Video(g, x, hw);
    VideoOwn(g, x, hw);
    VideoIsNoTransport(g, x, hw);
    VideoLedger(g, x, hw);
    VideoHears(g, x, y, qx, qy, hw);
    VideoRanAgreed(g, x, y, qx, qy, hw);
    VideoAlarms(g, x, y, hw);
    HeardGrows(g, x, x', y, qy);
    SentGrows(g, x, x');
    LogsGrow(g, x, x', y);
  }
}
