/** How far the promise of agreement reaches: what one record consumed in any reachable
    state does to every tick the gate may still run, whatever its stamp. */
module Exactness {
  import opened Bytes
  import opened Entry
  import opened Wire
  import opened Console
  import opened Lockstep
  import opened FrameProofs
  import opened NetProofs
  import opened Agreement
  import opened Delivery

  /** What a slot held a lap ago: the capture of that tick, or the seed before the first. */
  function Past<S(!new)>(y: Node<S>, u: int): u8
    requires u < |y.caps|
  {
    if u < 0 then IW_IDLE else y.caps[u]
  }

  lemma PastIs<S(!new)>(y: Node<S>, u: int)
    requires 0 <= u < |y.caps|
    ensures Past(y, u) == y.caps[u]
  {
  }

  /** All eight slots: the last eight ticks up to the watermark, seeds included. */
  lemma RingHoldsPast<S(!new)>(g: Game<S>, s: Sys<S>, u: int)
    requires Reaches(g, s) && Base(s.a) - 7 <= u <= Base(s.a)
    ensures |s.a.c.ring| == 8 && u < |s.b.caps| && s.a.c.ring[u % 8] == Past(s.b, u)
  {
    hide Reaches;
    ReachesWhole(g, s);
    hide Half, Own, Hears, Ledger, RanAgreed, SentOk, AlarmsReal, Sized;
    Parts(g, s.a, s.b, s.toA);
    RingHolds(g, s.a, s.b, s.toA, Base(s.a));
    if u >= 0 {
      RingHolds(g, s.a, s.b, s.toA, u);
    } else {
      assert u % 8 == u + 8;
    }
  }

  /** A record of the peer's, whatever its stamp: it is sound, it says what the peer's
      history says, and it cannot be more than five ticks ahead. */
  lemma RecordOf<S(!new)>(g: Game<S>, s: Sys<S>, p: Packet)
    requires Reaches(g, s)
    ensures |s.b.enter| == |s.b.caps| - 2 && Shaped(s.a.c) && Base(s.a) < |s.b.caps|
    ensures s.a.c.rwat == Wrap(s.a.high) && -1 <= Tick(s.a) <= Base(s.a) + 1 && Tick(s.a) - 2 <= s.a.high
    ensures Genuine(g, s.b, p) && IsInput(p) ==>
      && 2 <= p.at < |s.b.caps| && p.at - Tick(s.a) <= 5 && p.f.stamp == Wrap(p.at) && Sound(p.f)
      && p.f.b1 == s.b.caps[p.at] && p.f.b2 == s.b.caps[p.at - 1] && p.f.b3 == s.b.caps[p.at - 2]
  {
    ReachesInv(g, s);
    hide Half, Own, Hears, Checksum, Sound, Ledger, RanAgreed, AlarmsReal, SentOk, Sized, Reaches, Genuine;
    Parts(g, s.a, s.b, s.toA);
    BoundedSkew(g, s);
    TickCells(g, s.a);
    OwnBounds(g, s.a);
    OwnBounds(g, s.b);
    HearsBounds(g, s.a, s.b, s.toA);
    if Genuine(g, s.b, p) && IsInput(p) {
      GenuineSays(g, s.b, p);
    }
  }

  lemma OwnBounds<S(!new)>(g: Game<S>, n: Node<S>)
    requires Own(g, n)
    ensures Tick(n) >= -1
  {
    hide Checksum;
  }

  lemma HearsBounds<S(!new)>(g: Game<S>, x: Node<S>, y: Node<S>, q: seq<Packet>)
    requires |y.enter| == |y.caps| - 2 >= 0 && Hears(g, x, y, q)
    ensures Base(x) < |y.caps| && Tick(x) <= Base(x) + 1
  {
    hide InFlight, Batch;
    RingHolds(g, x, y, q, Base(x));
  }

  lemma GenuineSays<S(!new)>(g: Game<S>, y: Node<S>, p: Packet)
    requires |y.enter| == |y.caps| - 2 && Genuine(g, y, p) && IsInput(p)
    ensures 2 <= p.at < |y.caps| && p.f.stamp == Wrap(p.at) && Sound(p.f)
    ensures p.f.b1 == y.caps[p.at] && p.f.b2 == y.caps[p.at - 1] && p.f.b3 == y.caps[p.at - 2]
  {
    hide Checksum, Sound, Check;
    RecordsAreSound(p.f.stamp, p.f.b1, p.f.b2, p.f.b3, p.f.crc);
  }

  /** The next tick a console will run. */
  function NextTick<S>(x: Node<S>): int {
    Tick(x) + (if x.c.ent.ran then 1 else 0)
  }

  function FirstDue<S>(x: Node<S>): int {
    if NextTick(x) < 0 then 0 else NextTick(x)
  }

  /** The ticks it may still run once `at` is its watermark. */
  predicate Due<S>(x: Node<S>, at: int, u: int) {
    0 <= u && NextTick(x) <= u <= at
  }

  /** The ticks a record stamped `at` leaves out have the captures their slots held. */
  predicate LuckyGap<S(!new)>(x: Node<S>, y: Node<S>, at: int)
    requires at < |y.caps|
  {
    forall u :: Due(x, at, u) && Base(x) < u <= at - CBWIN ==> y.caps[u] == Past(y, u - 8)
  }

  lemma NearSlot<S(!new)>(g: Game<S>, s: Sys<S>, p: Packet, u: int)
    requires Reaches(g, s) && |s.b.enter| == |s.b.caps| - 2 && Shaped(s.a.c)
    requires Genuine(g, s.b, p) && IsInput(p) && p.at > s.a.high && Due(s.a, p.at, u)
    ensures u < |s.b.caps| && Consume(s.a.c, p.f).ring[u % 8]
      == if u <= Base(s.a) || u > p.at - CBWIN then s.b.caps[u] else Past(s.b, u - 8)
  {
    hide Reaches, Sound, Genuine, Arms, StoreWindow, Past;
    RecordOf(g, s, p);
    StoredSlots(s.a.c.ring, p.at, p.f, u);
    if u <= p.at - CBWIN {
      RingHoldsPast(g, s, if u <= Base(s.a) then u else u - 8);
      PastIs(s.b, u);
      assert (u - 8) % 8 == u % 8;
    }
  }

  /** THE NEAR EDGE. In any reachable state, consuming a record newer than the watermark
      opens the gate for every tick up to its stamp. The byte the gate will use for such a
      tick is the peer's capture if the tick had been received or lies in the record's own
      window, and otherwise what the slot held a lap ago, the seed in the first lap. So all
      those ticks will run right exactly when the stamp is within one window of the
      watermark or each skipped tick's capture happens to be the byte it left standing. */
  lemma WindowIsExact<S(!new)>(g: Game<S>, s: Sys<S>, p: Packet)
    requires Reaches(g, s)
    requires |s.b.enter| == |s.b.caps| - 2 && Genuine(g, s.b, p) && IsInput(p) && p.at > s.a.high
    ensures Shaped(s.a.c) && p.at < |s.b.caps|
    ensures var d := Consume(s.a.c, p.f);
      && (forall u :: Due(s.a, p.at, u) ==> NotBefore(d.rwat, Wrap(u)))
      && (forall u :: Due(s.a, p.at, u) ==>
            d.ring[u % 8] == if u <= Base(s.a) || u > p.at - CBWIN then s.b.caps[u] else Past(s.b, u - 8))
      && ((forall u :: Due(s.a, p.at, u) ==> d.ring[u % 8] == s.b.caps[u])
          <==> (p.at <= Base(s.a) + CBWIN || LuckyGap(s.a, s.b, p.at)))
  {
    hide Reaches, Sound, Genuine, Arms, StoreWindow, Past;
    RecordOf(g, s, p);
    var d := Consume(s.a.c, p.f);
    SignedCompare(p.at, s.a.high);
    assert d.rwat == Wrap(p.at);
    forall u | Due(s.a, p.at, u)
      ensures NotBefore(d.rwat, Wrap(u))
      ensures d.ring[u % 8] == if u <= Base(s.a) || u > p.at - CBWIN then s.b.caps[u] else Past(s.b, u - 8)
    {
      SignedCompare(p.at, u);
      NearSlot(g, s, p, u);
    }
  }

  // -------------------------------------------------------------- the far edge

  /** The tick whose capture a window ending at `at` leaves in the slot of tick `u`. */
  function Lands(at: int, u: int): int {
    if (u - at) % 8 == 0 then at
    else if (u - at + 1) % 8 == 0 then at - 1
    else if (u - at + 2) % 8 == 0 then at - 2
    else u
  }

  lemma StoredAnywhere(ring: seq<u8>, at: int, f: Wire.Frame, u: int)
    requires |ring| == 8 && f.stamp == Wrap(at)
    ensures StoreWindow(ring, f)[u % 8] ==
      if (u - at) % 8 == 0 then f.b1
      else if (u - at + 1) % 8 == 0 then f.b2
      else if (u - at + 2) % 8 == 0 then f.b3
      else ring[u % 8]
  {
    MaskOfWrapped(at);
    SlotOfWrapped(at, -1);
    SlotOfWrapped(at, -2);
    SameSlot(u, at);
    SameSlot(u, at - 1);
    SameSlot(u, at - 2);
    RemoteSlots(at, at - 1);
    RemoteSlots(at, at - 2);
    RemoteSlots(at - 1, at - 2);
  }

  lemma SameSlot(u: int, w: int)
    ensures (u - w) % 8 == 0 <==> u % 8 == w % 8
  {
  }

  /** A window ending at `at` lands in the slot of no tick from `first` to `high` but its
      own: nobody is due a lap later than one of its three ticks. */
  predicate Clears(at: int, first: int, high: int) {
    var from := if first > at + 6 then first else at + 6;
    from <= high ==> (from - at - 6) % 8 >= 3 && (from - at - 6) % 8 + (high - from) <= 7
  }

  lemma LandsAtHome(at: int, u: int)
    requires u < at + 6 || (u - at - 6) % 8 >= 3
    requires at - 5 <= u
    ensures Lands(at, u) == u
  {
    if u >= at + 6 {
      assert (u - at) % 8 == (u - at - 6 + 6) % 8;
    }
  }

  lemma LandsAbroad(at: int, u: int)
    requires u >= at + 6 && (u - at - 6) % 8 < 3
    ensures Lands(at, u) <= at && Lands(at, u) != u
  {
    assert (u - at) % 8 == (u - at - 6 + 6) % 8;
    assert (u - at + 1) % 8 == (u - at - 6 + 7) % 8;
    assert (u - at + 2) % 8 == (u - at - 6 + 8) % 8;
  }

  lemma ClearsNear(at: int, first: int, high: int)
    requires high < at + 6
    ensures Clears(at, first, high)
  {
  }

  lemma SkewOf<S(!new)>(g: Game<S>, s: Sys<S>)
    requires Reaches(g, s)
    ensures s.a.high - Tick(s.a) <= 5
  {
    hide Reaches;
    BoundedSkew(g, s);
  }

  /** Counting on from a tick within a lap. */
  lemma Later(from: int, u: int, base: int)
    requires from <= u <= from + 5
    ensures var k := (from - base) % 8;
      (u - base) % 8 == if k + (u - from) < 8 then k + (u - from) else k + (u - from) - 8
  {
  }

  /** The closed form is the condition on every due tick. */
  lemma ClearsIs(at: int, first: int, high: int)
    requires high - 5 <= first && at <= high && at - 5 <= first
    ensures Clears(at, first, high) <==> forall u :: first <= u <= high ==> Lands(at, u) == u
  {
    var from := if first > at + 6 then first else at + 6;
    var k := (from - at - 6) % 8;
    if Clears(at, first, high) {
      forall u | first <= u <= high ensures Lands(at, u) == u {
        if u >= from {
          Later(from, u, at + 6);
        }
        LandsAtHome(at, u);
      }
    } else {
      var u := if k < 3 then from else from + (8 - k);
      Later(from, u, at + 6);
      LandsAbroad(at, u);
      assert first <= u <= high;
    }
  }

  /** How the watermark's signed comparison reads a record `d` ticks old. */
  lemma OldStamp(at: int, high: int)
    requires at <= high
    ensures (if NotBefore(Wrap(at), Wrap(high)) then Wrap(at) else Wrap(high)) == Wrap(high)
      <==> (high - at) % 256 <= 128
  {
    var d := (high - at) % 256;
    var q := (high - at) / 256;
    assert at - high == -256 * q - d;
    assert (Wrap(at) - Wrap(high)) % 256 == (256 - d) % 256 by {
      WrapDifference(at, high);
      ModShift(256 - d, -q - 1);
    }
  }

  lemma WrapDifference(a: int, b: int)
    ensures (Wrap(a) - Wrap(b)) % 256 == (a - b) % 256
  {
    var q, r := a / 256, b / 256;
    assert Wrap(a) - Wrap(b) == a - b + 256 * (r - q);
    ModShift(a - b, r - q);
  }

  /** THE FAR EDGE. In any reachable state, consuming a record no newer than the watermark,
      however old, leaves in the slot of each tick still to run the capture of the tick that
      lands there. It is harmless exactly when every such tick it lands on has the same
      capture; it lands on none but its own exactly when it clears them, which it does
      whenever it trails the watermark by less than six; and it leaves the watermark alone
      exactly when its distance, modulo 256, is at most 128. */
  lemma DuplicateIsExact<S(!new)>(g: Game<S>, s: Sys<S>, p: Packet)
    requires Reaches(g, s)
    requires |s.b.enter| == |s.b.caps| - 2 && Genuine(g, s.b, p) && IsInput(p) && p.at <= s.a.high
    ensures Shaped(s.a.c) && 2 <= p.at <= s.a.high < |s.b.caps|
    ensures var d, high := Consume(s.a.c, p.f), s.a.high;
      && (forall u :: Due(s.a, high, u) ==>
            0 <= Lands(p.at, u) < |s.b.caps| && d.ring[u % 8] == s.b.caps[Lands(p.at, u)])
      && ((forall u :: Due(s.a, high, u) ==> d.ring[u % 8] == s.b.caps[u])
          <==> forall u :: Due(s.a, high, u) ==> s.b.caps[Lands(p.at, u)] == s.b.caps[u])
      && ((forall u :: Due(s.a, high, u) ==> Lands(p.at, u) == u) <==> Clears(p.at, FirstDue(s.a), high))
      && (high < p.at + 6 ==> Clears(p.at, FirstDue(s.a), high))
      && (d.rwat == s.a.c.rwat <==> (high - p.at) % 256 <= 128)
  {
    hide Reaches, Sound, Genuine, Arms, StoreWindow, Clears;
    RecordOf(g, s, p);
    SkewOf(g, s);
    OldStamp(p.at, s.a.high);
    forall u | Due(s.a, s.a.high, u)
      ensures 0 <= Lands(p.at, u) < |s.b.caps| && Consume(s.a.c, p.f).ring[u % 8] == s.b.caps[Lands(p.at, u)]
    {
      StoredAnywhere(s.a.c.ring, p.at, p.f, u);
      RingHoldsPast(g, s, u);
    }
    hide Lands, Consume;
    ClearsIs(p.at, FirstDue(s.a), s.a.high);
    assert forall u :: Due(s.a, s.a.high, u) <==> FirstDue(s.a) <= u <= s.a.high;
    if s.a.high < p.at + 6 {
      ClearsNear(p.at, FirstDue(s.a), s.a.high);
    }
  }
}
