/** A transport micro-step keeps the lockstep invariant, while READs are timely. */
module NetProofs {
  import opened Bytes
  import opened Entry
  import opened Wire
  import opened Console
  import opened Lockstep
  import opened FrameProofs

  lemma DrainFits<S(!new)>(g: Game<S>, x: Node<S>, y: Node<S>, q: seq<Packet>, m: Mail)
    requires Half(g, x, y, q)
    ensures Drained(x, m) <= |q|
  {
  }

  /** What a micro-step that consumes nothing leaves alone. */
  ghost predicate Untouched<S(!new)>(x: Node<S>, x': Node<S>) {
    && x'.c.ent == x.c.ent && x'.c.tick == x.c.tick && x'.c.rwat == x.c.rwat
    && x'.c.ring == x.c.ring && x'.c.loc == x.c.loc && x'.c.crcv == x.c.crcv
    && x'.high == x.high && x'.caps == x.caps && x'.raw == x.raw && x'.enter == x.enter
    && x'.ran == x.ran && x'.arms == x.arms
  }

  predicate Consumes<S(!new)>(x: Node<S>) {
    x.c.nst.Cons? && x.c.rdn > 0
  }

  lemma NetUntouched<S(!new)>(x: Node<S>, q: seq<Packet>, m: Mail, taken: bool)
    requires Shaped(x.c) && Readable(m) && Drained(x, m) <= |q|
    requires !Consumes(x)
    ensures Untouched(x, Net(x, q, m, taken))
  {
    hide Check, Sound;
  }

  lemma UntouchedKeeps<S(!new)>(g: Game<S>, x: Node<S>, x': Node<S>, y: Node<S>)
    requires Untouched(x, x') && Own(g, x)
    ensures Own(g, x')
    ensures Ledger(x) ==> Ledger(x')
    ensures RanAgreed(x, y) ==> RanAgreed(x', y)
    ensures AlarmsReal(g, x, y) ==> AlarmsReal(g, x', y)
  {
    hide Checksum;
  }

  // -------------------------------------------------------------- steps with no traffic

  /** Waiting, issuing STATUS or READ, counting bytes, failing, running out of records. */
  predicate Quiet<S(!new)>(x: Node<S>, m: Mail) {
    !x.c.nst.Wiss? && !ReadCompletes(x, m) && !Consumes(x)
  }

  lemma QuietKeeps<S(!new)>(g: Game<S>, x: Node<S>, y: Node<S>, qx: seq<Packet>, m: Mail, taken: bool)
    requires Half(g, x, y, qx)
    requires Possible(x, qx, Micro(m, taken)) && Quiet(x, m)
    ensures Drained(x, m) == 0 && Launched(x, taken) == []
    ensures var x' := Net(x, qx, m, taken); Hears(g, x', y, qx) && Sized(x', qx) && x'.sent == x.sent
  {
    hide Checksum, Check, Sound, Genuine;
    var x' := Net(x, qx, m, taken);
    NetUntouched(x, qx, m, taken);
    assert Pending(x') == [];
    assert !x'.c.nst.Cons?;
  }

  // -------------------------------------------------------------- the WRITE

  /** The record on the wire is the record the history dictates for its stamp. */
  lemma OutgoingIsGenuine<S(!new)>(g: Game<S>, x: Node<S>)
    requires Own(g, x) && Tick(x) >= 0
    ensures Genuine(g, x, Packet(Outgoing(x.c), Tick(x) + CBD))
  {
    hide Checksum, Check;
    var t := Tick(x);
    SlotOfWrapped(t, CBD);
    SlotOfWrapped(t + CBD, -1);
    SlotOfWrapped(t + CBD, -2);
  }

  ghost predicate Sends<S(!new)>(x: Node<S>, x': Node<S>, p: Packet) {
    x'.caps == x.caps && x'.enter == x.enter && x'.sent == x.sent + [p]
  }

  lemma SendKeepsSent<S(!new)>(g: Game<S>, x: Node<S>, x': Node<S>, p: Packet)
    requires |x.enter| == |x.caps| - 2 && Sends(x, x', p)
    requires SentOk(g, x) && IsInput(p) && Genuine(g, x, p) && Last(x) <= p.at <= Last(x) + 6
    ensures SentOk(g, x')
  {
    hide Genuine, Record, Checksum, Forward;
    var ps, ps' := x.sent, x'.sent;
    forall i | 0 <= i < |ps'|
      ensures IsInput(ps'[i]) && Genuine(g, x', ps'[i]) && ps'[i].at <= Before(ps', i) + 6
    {
      var r := if i < |ps| then ps[i] else p;
      assert ps'[i] == r;
      GenuineGrows(g, x, x', r);
      assert Before(ps', i) == if i < |ps| then Before(ps, i) else Last(x);
    }
    ForwardAppend(ps, p);
  }

  lemma ForwardAppend(ps: seq<Packet>, p: Packet)
    requires Forward(ps) && (forall i :: 0 <= i < |ps| ==> IsInput(ps[i]))
    requires ps != [] ==> ps[|ps| - 1].at <= p.at
    ensures Forward(ps + [p])
  {
    forall i | 0 <= i < |ps| ensures ps[i].at <= p.at {
      BelowLast(ps, i);
    }
  }

  lemma BelowLast(ps: seq<Packet>, i: nat)
    requires Forward(ps) && i < |ps| && IsInput(ps[i]) && IsInput(ps[|ps| - 1])
    ensures ps[i].at <= ps[|ps| - 1].at
  {
  }

  lemma SendIsHeard<S(!new)>(g: Game<S>, x: Node<S>, x': Node<S>, y: Node<S>, qy: seq<Packet>, p: Packet)
    requires |x.enter| == |x.caps| - 2 >= 0 && Sends(x, x', p)
    requires Hears(g, y, x, qy) && IsInput(p) && Genuine(g, x, p) && Last(x) <= p.at
    ensures Hears(g, y, x', qy + [p])
  {
    hide Record, Checksum, Batch;
    assert Last(x') == p.at;
    forall i | 0 <= i < |qy + [p]|
      ensures Genuine(g, x', (qy + [p])[i])
      ensures IsInput((qy + [p])[i]) ==> y.high <= (qy + [p])[i].at <= p.at
    {
      assert i < |qy| ==> (qy + [p])[i] == qy[i];
    }
    forall i | 0 <= i < |Pending(y)| ensures Genuine(g, x', Pending(y)[i]) {
      GenuineGrows(g, x, x', Pending(y)[i]);
    }
  }

  lemma WriteKeepsHearing<S(!new)>(g: Game<S>, x: Node<S>, y: Node<S>, qx: seq<Packet>, m: Mail, taken: bool)
    requires Half(g, x, y, qx)
    requires Possible(x, qx, Micro(m, taken)) && x.c.nst.Wiss?
    ensures Drained(x, m) == 0
    ensures var x' := Net(x, qx, m, taken); Hears(g, x', y, qx) && Sized(x', qx)
  {
    hide Checksum, Check, Sound, Genuine, Record, Outgoing;
    var x' := Net(x, qx, m, taken);
    NetUntouched(x, qx, m, taken);
    assert Pending(x') == [] == Pending(x);
  }

  lemma WriteHeard<S(!new)>(g: Game<S>, x: Node<S>, y: Node<S>, qx: seq<Packet>, qy: seq<Packet>, m: Mail, taken: bool)
    requires Half(g, x, y, qx) && Half(g, y, x, qy)
    requires Possible(x, qx, Micro(m, taken)) && x.c.nst.Wiss?
    requires Drained(x, m) <= |qx|
    ensures var x' := Net(x, qx, m, taken);
      SentOk(g, x') && Hears(g, y, x', qy + Launched(x, taken)) && Sized(y, qy + Launched(x, taken))
  {
    hide Checksum, Sound, Genuine, Record, Outgoing, NStep, Hears, InFlight, Batch, Ledger, RanAgreed, AlarmsReal;
    var x' := Net(x, qx, m, taken);
    NetUntouched(x, qx, m, taken);
    OutgoingIsGenuine(g, x);
    OutgoingIsInput(x.c);
    Skew(g, x, y, qx, qy);
    var p := Packet(Outgoing(x.c), Tick(x) + CBD);
    if taken {
      SendKeepsSent(g, x, x', p);
      SendIsHeard(g, x, x', y, qy, p);
    } else {
      assert x'.sent == x.sent && qy + Launched(x, taken) == qy;
      HeardGrows(g, x, x', y, qy);
      SentGrows(g, x, x');
    }
  }

  lemma OutgoingIsInput(c: Cells)
    requires Shaped(c)
    ensures Outgoing(c).typ == WT_INPUT
  {
    hide Check;
  }

  // -------------------------------------------------------------- the READ

  lemma GenuineRange<S(!new)>(g: Game<S>, y: Node<S>, p: Packet)
    requires |y.enter| == |y.caps| - 2 && Genuine(g, y, p) && IsInput(p)
    ensures 2 <= p.at < |y.caps|
  {
  }

  /** A timely READ moves whole records, in order, from the stream to the window. */
  lemma ReadKeeps<S(!new)>(g: Game<S>, x: Node<S>, y: Node<S>, qx: seq<Packet>, m: Mail, taken: bool)
    requires Half(g, x, y, qx)
    requires Possible(x, qx, Micro(m, taken)) && Timely(x, qx, Micro(m, taken))
    requires ReadCompletes(x, m)
    ensures 0 < Drained(x, m) <= |qx| && Drained(x, m) <= 31 && Launched(x, taken) == []
    ensures var x' := Net(x, qx, m, taken); var k := Drained(x, m);
      Hears(g, x', y, qx[k..]) && Sized(x', qx[k..]) && x'.sent == x.sent && Pending(x') == qx[..k]
  {
    hide Checksum, Check, Sound, Genuine, Record, Own, Ledger, RanAgreed, AlarmsReal, SentOk;
    OwnShape(g, x);
    OwnShape(g, y);
    var x' := Net(x, qx, m, taken);
    var k := Drained(x, m);
    NetUntouched(x, qx, m, taken);
    assert x'.c.rdn == k && x'.window == qx[..k];
    assert Pending(x') == qx[..k];
    assert Pending(x) == [];
    assert Sized(x', qx[k..]) && x'.sent == x.sent;
    forall i | 0 <= i < |Pending(x')| && IsInput(Pending(x')[i])
      ensures x.high <= Pending(x')[i].at <= Base(x) + CBWIN && Pending(x')[i].at >= 2
    {
      assert Pending(x')[i] == qx[i] && Genuine(g, y, qx[i]);
      GenuineRange(g, y, qx[i]);
    }
    assert InFlight(g, x', y, qx[k..]);
  }

  // -------------------------------------------------------------- one record

  /** The slots a window is stored to, in unbounded terms. */
  lemma StoredSlots(ring: seq<u8>, at: int, f: Wire.Frame, u: int)
    requires |ring| == 8 && f.stamp == Wrap(at)
    requires -8 < u - at < 6
    ensures StoreWindow(ring, f)[u % 8] ==
      if u == at - 2 then f.b3 else if u == at - 1 then f.b2 else if u == at then f.b1 else ring[u % 8]
  {
    MaskOfWrapped(at);
    SlotOfWrapped(at, -1);
    SlotOfWrapped(at, -2);
    RemoteSlots(u, at);
    RemoteSlots(u, at - 1);
    RemoteSlots(u, at - 2);
    RemoteSlots(at, at - 1);
    RemoteSlots(at, at - 2);
    RemoteSlots(at - 1, at - 2);
  }

  /** What waits under the cursor is genuine. */
  lemma CursorGenuine<S(!new)>(g: Game<S>, x: Node<S>, y: Node<S>, qx: seq<Packet>)
    requires Half(g, x, y, qx) && Consumes(x)
    ensures x.c.rdn <= |x.window| && |x.window| <= 31
    ensures var p := x.window[x.c.rdn - 1];
      Genuine(g, y, p) && (IsInput(p) ==> Sound(p.f))
  {
    hide Checksum, Check, Sound, Ledger, RanAgreed, AlarmsReal, SentOk;
    var p := x.window[x.c.rdn - 1];
    assert Pending(x)[x.c.rdn - 1] == p;
    if IsInput(p) {
      RecordsAreSound(p.f.stamp, p.f.b1, p.f.b2, p.f.b3, p.f.crc);
    }
  }

  /** The record under the cursor, and what consuming it does to the cells. */
  lemma ConsumeMeans<S(!new)>(g: Game<S>, x: Node<S>, y: Node<S>, qx: seq<Packet>, m: Mail, taken: bool)
    requires Half(g, x, y, qx) && Possible(x, qx, Micro(m, taken)) && Consumes(x)
    ensures Drained(x, m) == 0 && Launched(x, taken) == [] && x.c.rdn <= |x.window|
    ensures var p := x.window[x.c.rdn - 1]; var x' := Net(x, qx, m, taken);
      && Genuine(g, y, p)
      && x'.c == Consume(x.c.(rdn := x.c.rdn - 1), p.f)
      && Pending(x') == x.window[..x.c.rdn - 1]
      && x'.sent == x.sent && x'.window == x.window && x'.caps == x.caps && x'.raw == x.raw
      && x'.enter == x.enter && x'.ran == x.ran
      && (IsInput(p) ==> Sound(p.f))
      && x'.high == (if IsInput(p) && p.at >= x.high then p.at else x.high)
      && x'.arms == if IsInput(p) && Arms(x.c, p.f) then x.arms + {Tick(x)} else x.arms
  {
    hide Checksum, Check, Sound, Ledger, RanAgreed, AlarmsReal, SentOk, Genuine, StoreWindow, Hears, Own;
    CursorGenuine(g, x, y, qx);
    var p := x.window[x.c.rdn - 1];
    assert m.reply[Cursor(x.c)] == p.f;
  }

  /** How far the record under the cursor can be from the cells it meets. */
  lemma ConsumeRange<S(!new)>(g: Game<S>, x: Node<S>, y: Node<S>, qx: seq<Packet>, qy: seq<Packet>)
    requires Half(g, x, y, qx) && Half(g, y, x, qy) && Consumes(x)
    ensures x.c.rdn <= |x.window| <= 31
    ensures var p := x.window[x.c.rdn - 1];
      IsInput(p) ==> -3 <= p.at - x.high <= 6 && -7 <= p.at - 2 - Tick(x) <= 6
                     && 2 <= p.at < |y.caps| && p.f.stamp == Wrap(p.at)
                     && Base(x) - 3 <= p.at <= Base(x) + 3
  {
    hide Checksum, Check, Sound, Ledger, RanAgreed, AlarmsReal;
    Skew(g, x, y, qx, qy);
    var p := x.window[x.c.rdn - 1];
    assert Pending(x)[x.c.rdn - 1] == p;
  }

  /** The watermark moves exactly to newer stamps, as bytes and as ticks. */
  lemma ConsumeOwn<S(!new)>(g: Game<S>, x: Node<S>, y: Node<S>, qx: seq<Packet>, qy: seq<Packet>, m: Mail, taken: bool)
    requires Half(g, x, y, qx) && Half(g, y, x, qy)
    requires Possible(x, qx, Micro(m, taken)) && Consumes(x)
    requires Drained(x, m) <= |qx|
    ensures Own(g, Net(x, qx, m, taken))
  {
    hide Checksum, Check, Sound, Genuine, NStep, Net, StoreWindow, Press, Hears, Ledger, RanAgreed, AlarmsReal, SentOk;
    ConsumeMeans(g, x, y, qx, m, taken);
    ConsumeRange(g, x, y, qx, qy);
    var p := x.window[x.c.rdn - 1];
    if IsInput(p) {
      SignedCompare(p.at, x.high);
    }
  }

  lemma ConsumeLedger<S(!new)>(g: Game<S>, x: Node<S>, y: Node<S>, qx: seq<Packet>, qy: seq<Packet>, m: Mail,
                               taken: bool)
    requires Half(g, x, y, qx) && Half(g, y, x, qy)
    requires Possible(x, qx, Micro(m, taken)) && Consumes(x)
    requires Drained(x, m) <= |qx|
    ensures Ledger(Net(x, qx, m, taken)) && RanAgreed(Net(x, qx, m, taken), y)
  {
    hide Checksum, Check, Sound, Genuine, NStep, Net, StoreWindow, Press, Hears, AlarmsReal, SentOk;
    ConsumeMeans(g, x, y, qx, m, taken);
    ConsumeRange(g, x, y, qx, qy);
  }

  lemma ConsumeRing<S(!new)>(g: Game<S>, x: Node<S>, y: Node<S>, qx: seq<Packet>, qy: seq<Packet>, m: Mail, taken: bool)
    requires Half(g, x, y, qx) && Half(g, y, x, qy)
    requires Possible(x, qx, Micro(m, taken)) && Consumes(x)
    requires Drained(x, m) <= |qx|
    ensures var x' := Net(x, qx, m, taken);
      |x'.c.ring| == 8 && Base(x') < |y.caps| &&
      forall u :: 0 <= u && Base(x') - 7 <= u <= Base(x') ==> x'.c.ring[u % 8] == y.caps[u]
  {
    hide Checksum, Check, Sound, NStep, Net, StoreWindow, Own, Ledger, RanAgreed, AlarmsReal, SentOk, Arms, Sized;
    OwnShape(g, x);
    OwnShape(g, y);
    ConsumeMeans(g, x, y, qx, m, taken);
    ConsumeRange(g, x, y, qx, qy);
    var p := x.window[x.c.rdn - 1];
    var x' := Net(x, qx, m, taken);
    RingHolds(g, x, y, qx, Base(x));
    forall u | 0 <= u && Base(x') - 7 <= u <= Base(x')
      ensures x'.c.ring[u % 8] == y.caps[u]
    {
      if IsInput(p) {
        assert x'.c.ring == StoreWindow(x.c.ring, p.f);
        StoredSlots(x.c.ring, p.at, p.f, u);
        if u < p.at - 2 || u > p.at {
          RingHolds(g, x, y, qx, u);
        } else {
          assert p.f.b1 == y.caps[p.at] && p.f.b2 == y.caps[p.at - 1] && p.f.b3 == y.caps[p.at - 2];
        }
      } else {
        RingHolds(g, x, y, qx, u);
      }
    }
  }

  lemma ConsumeHears<S(!new)>(g: Game<S>, x: Node<S>, y: Node<S>, qx: seq<Packet>, qy: seq<Packet>, m: Mail,
                       taken: bool)
    requires Half(g, x, y, qx) && Half(g, y, x, qy)
    requires Possible(x, qx, Micro(m, taken)) && Consumes(x)
    requires Drained(x, m) <= |qx|
    ensures Hears(g, Net(x, qx, m, taken), y, qx) && Sized(Net(x, qx, m, taken), qx)
  {
    hide Checksum, Check, Sound, Genuine, NStep, Net, Consume, Own, Ledger, RanAgreed, AlarmsReal, SentOk, Arms;
    OwnShape(g, x);
    OwnShape(g, y);
    ConsumeMeans(g, x, y, qx, m, taken);
    ConsumeRange(g, x, y, qx, qy);
    ConsumeRing(g, x, y, qx, qy, m, taken);
    ConsumeKeepsState(x.c.(rdn := x.c.rdn - 1), x.window[x.c.rdn - 1].f);
    var x' := Net(x, qx, m, taken);
    var k := x.c.rdn - 1;
    assert Pending(x)[k] == x.window[k];
    forall i | 0 <= i < |Pending(x')| ensures Pending(x')[i] == Pending(x)[i] {
    }
    assert InFlight(g, x', y, qx);
    assert Batch(x');
  }

  lemma ConsumeKeepsState(c: Cells, f: Wire.Frame)
    requires Shaped(c)
    ensures var c' := Consume(c, f);
      && c'.nst == c.nst && c'.rdn == c.rdn && c'.tick == c.tick && c'.crcv == c.crcv && c'.loc == c.loc
      && c'.ent == c.ent.(rsy := c'.ent.rsy) && c'.shadows == c.shadows
  {
    hide Sound, StoreWindow;
  }

  /** The desync test compares two checksums of the same tick, so what it reports is a
      difference between the two simulations at that tick. */
  lemma ConsumeAlarms<S(!new)>(g: Game<S>, x: Node<S>, y: Node<S>, qx: seq<Packet>, qy: seq<Packet>, m: Mail,
                        taken: bool)
    requires Half(g, x, y, qx) && Half(g, y, x, qy)
    requires Possible(x, qx, Micro(m, taken)) && Consumes(x)
    requires Drained(x, m) <= |qx|
    ensures AlarmsReal(g, Net(x, qx, m, taken), y)
  {
    hide Checksum, Check, Sound, NStep, Net, Consume, Hears, Ledger, RanAgreed, SentOk, Sized;
    ConsumeMeans(g, x, y, qx, m, taken);
    ConsumeRange(g, x, y, qx, qy);
    var p := x.window[x.c.rdn - 1];
    if IsInput(p) && Arms(x.c, p.f) {
      SlotOfWrapped(p.at, -CBD);
      WrapEqual(p.at - CBD, Tick(x));
    }
  }

  lemma WrapEqual(a: int, b: int)
    requires -256 < a - b < 256
    ensures Wrap(a) == Wrap(b) <==> a == b
  {
  }

  // -------------------------------------------------------------- every micro-step

  /** The parts of one micro-step that concern the stepping console. */
  lemma NetKeepsMine<S(!new)>(g: Game<S>, x: Node<S>, y: Node<S>, qx: seq<Packet>, qy: seq<Packet>, m: Mail,
                       taken: bool)
    requires Half(g, x, y, qx) && Half(g, y, x, qy)
    requires Possible(x, qx, Micro(m, taken)) && Timely(x, qx, Micro(m, taken))
    ensures Drained(x, m) <= |qx|
    ensures var x' := Net(x, qx, m, taken);
      && Own(g, x') && Ledger(x') && RanAgreed(x', y) && AlarmsReal(g, x', y)
      && Hears(g, x', y, qx[Drained(x, m)..]) && Sized(x', qx[Drained(x, m)..])
      && x'.c.ent.guest == x.c.ent.guest
  {
    hide Checksum, Own, Ledger, RanAgreed, AlarmsReal, Hears, Genuine, Sound, Check, SentOk, NStep, Net, Sized;
    OwnShape(g, x);
    DrainFits(g, x, y, qx, m);
    var x' := Net(x, qx, m, taken);
    if Consumes(x) {
      ConsumeMeans(g, x, y, qx, m, taken);
      ConsumeKeepsState(x.c.(rdn := x.c.rdn - 1), x.window[x.c.rdn - 1].f);
      ConsumeOwn(g, x, y, qx, qy, m, taken);
      ConsumeLedger(g, x, y, qx, qy, m, taken);
      ConsumeHears(g, x, y, qx, qy, m, taken);
      ConsumeAlarms(g, x, y, qx, qy, m, taken);
      assert qx[0..] == qx;
    } else {
      NetUntouched(x, qx, m, taken);
      UntouchedKeeps(g, x, x', y);
      if ReadCompletes(x, m) {
        ReadKeeps(g, x, y, qx, m, taken);
      } else {
        if x.c.nst.Wiss? {
          WriteKeepsHearing(g, x, y, qx, m, taken);
        } else {
          QuietKeeps(g, x, y, qx, m, taken);
        }
        assert qx[0..] == qx;
      }
    }
  }

  /** The parts that concern its peer. */
  lemma NetKeepsTheirs<S(!new)>(g: Game<S>, x: Node<S>, y: Node<S>, qx: seq<Packet>, qy: seq<Packet>, m: Mail,
                         taken: bool)
    requires Half(g, x, y, qx) && Half(g, y, x, qy)
    requires Possible(x, qx, Micro(m, taken)) && Timely(x, qx, Micro(m, taken))
    requires Drained(x, m) <= |qx|
    ensures var x' := Net(x, qx, m, taken); var qy' := qy + Launched(x, taken);
      Own(g, x') && Hears(g, y, x', qy') && SentOk(g, x') && Sized(y, qy') && RanAgreed(y, x') && AlarmsReal(g, y, x')
  {
    hide Checksum, Own, Ledger, RanAgreed, AlarmsReal, Hears, Genuine, Sound, Check, SentOk, NStep;
    OwnShape(g, x);
    var x' := Net(x, qx, m, taken);
    NetKeepsMine(g, x, y, qx, qy, m, taken);
    NetKeepsHistory(g, x, y, qx, m, taken);
    LogsGrow(g, x, x', y);
    if x.c.nst.Wiss? {
      WriteHeard(g, x, y, qx, qy, m, taken);
    } else {
      assert qy + Launched(x, taken) == qy;
      HeardGrows(g, x, x', y, qy);
      SentGrows(g, x, x');
    }
  }

  lemma NetKeepsHistory<S(!new)>(g: Game<S>, x: Node<S>, y: Node<S>, qx: seq<Packet>, m: Mail, taken: bool)
    requires Shaped(x.c) && Readable(m) && Drained(x, m) <= |qx|
    ensures var x' := Net(x, qx, m, taken);
      && x'.caps == x.caps && x'.enter == x.enter && x'.raw == x.raw && x'.ran == x.ran && x'.sim == x.sim
      && x'.dirty == x.dirty && x'.off == x.off && x'.sent == x.sent + Launched(x, taken)
  {
  }

  lemma NetKeeps<S(!new)>(g: Game<S>, x: Node<S>, y: Node<S>, qx: seq<Packet>, qy: seq<Packet>, m: Mail, taken: bool)
    requires Half(g, x, y, qx) && Half(g, y, x, qy)
    requires Possible(x, qx, Micro(m, taken)) && Timely(x, qx, Micro(m, taken))
    ensures Drained(x, m) <= |qx|
    ensures Half(g, Net(x, qx, m, taken), y, qx[Drained(x, m)..])
    ensures Half(g, y, Net(x, qx, m, taken), qy + Launched(x, taken))
  {
    hide Checksum, Own, Ledger, RanAgreed, AlarmsReal, Hears, Genuine, SentOk, NStep, Sized, Net;
    NetKeepsMine(g, x, y, qx, qy, m, taken);
    NetKeepsTheirs(g, x, y, qx, qy, m, taken);
  }

  // -------------------------------------------------------------- the other two

  ghost predicate SameNetcode<S(!new)>(x: Node<S>, x': Node<S>) {
    && x'.c == x.c && x'.window == x.window && x'.high == x.high && x'.caps == x.caps && x'.raw == x.raw
    && x'.enter == x.enter && x'.ran == x.ran && x'.sent == x.sent && x'.arms == x.arms
  }

  lemma SameNetcodeMine<S(!new)>(g: Game<S>, x: Node<S>, x': Node<S>, y: Node<S>, qx: seq<Packet>)
    requires SameNetcode(x, x') && Half(g, x, y, qx)
    ensures Half(g, x', y, qx)
  {
    hide Genuine, Checksum;
    assert Pending(x') == Pending(x);
    assert Own(g, x') && Ledger(x') && RanAgreed(x', y) && AlarmsReal(g, x', y);
    SentGrows(g, x, x');
  }

  lemma SameNetcodeTheirs<S(!new)>(g: Game<S>, x: Node<S>, x': Node<S>, y: Node<S>, qy: seq<Packet>)
    requires SameNetcode(x, x') && Half(g, y, x, qy)
    ensures Half(g, y, x', qy)
  {
    hide Genuine, Checksum, Hears, Sized, SentOk;
    assert Own(g, x');
    HeardGrows(g, x, x', y, qy);
    LogsGrow(g, x, x', y);
  }

  lemma LeaveKeeps<S(!new)>(g: Game<S>, x: Node<S>, y: Node<S>, qy: seq<Packet>)
    requires Half(g, y, x, qy)
    ensures Half(g, y, x, qy + [PEER_LEFT])
  {
    hide Own, Ledger, RanAgreed, AlarmsReal, SentOk, Checksum, Record;
    OwnShape(g, x);
    var q := qy + [PEER_LEFT];
    forall i | 0 <= i < |q|
      ensures Genuine(g, x, q[i]) && (IsInput(q[i]) ==> y.high <= q[i].at <= Last(x))
    {
      assert i < |qy| ==> q[i] == qy[i];
    }
  }
}
