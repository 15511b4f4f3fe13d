/** What is never lost: the newest record sent is in the stream, in the window or in the
    watermark, and a slot no record has reached still holds its seed. */
module Delivery {
  import opened Bytes
  import opened Entry
  import opened Wire
  import opened Console
  import opened Lockstep
  import opened FrameProofs
  import opened NetProofs
  import opened Agreement

  /** A record stamped `at` is among these packets. */
  predicate Carries(ps: seq<Packet>, at: int) {
    exists i :: 0 <= i < |ps| && IsInput(ps[i]) && ps[i].at == at
  }

  /** The last record `y` sent: consumed by `x`, in its window, or on its way. */
  predicate Delivered<S(!new)>(x: Node<S>, y: Node<S>, q: seq<Packet>) {
    y.sent == [] || x.high == Last(y) || Carries(Pending(x), Last(y)) || Carries(q, Last(y))
  }

  /** The slots past the watermark in the first lap hold what the handover put there. */
  predicate Seeded<S>(x: Node<S>) {
    |x.c.ring| == 8 && forall u :: Base(x) < u < 8 ==> x.c.ring[u] == IW_IDLE
  }

  predicate Kept<S(!new)>(x: Node<S>, y: Node<S>, q: seq<Packet>) {
    Delivered(x, y, q) && Seeded(x)
  }

  // -------------------------------------------------------------- the receiver moves

  lemma CarriesSplit(ps: seq<Packet>, k: nat, at: int)
    requires k <= |ps| && Carries(ps, at)
    ensures Carries(ps[..k], at) || Carries(ps[k..], at)
  {
    var i :| 0 <= i < |ps| && IsInput(ps[i]) && ps[i].at == at;
    if i < k {
      assert ps[..k][i] == ps[i];
    } else {
      assert ps[k..][i - k] == ps[i];
    }
  }

  lemma CarriesMore(ps: seq<Packet>, more: seq<Packet>, at: int)
    requires Carries(ps, at) || Carries(more, at)
    ensures Carries(ps + more, at)
  {
    if Carries(ps, at) {
      var i :| 0 <= i < |ps| && IsInput(ps[i]) && ps[i].at == at;
      assert (ps + more)[i] == ps[i];
    } else {
      var i :| 0 <= i < |more| && IsInput(more[i]) && more[i].at == at;
      assert (ps + more)[|ps| + i] == more[i];
    }
  }

  lemma VideoKept<S(!new)>(g: Game<S>, x: Node<S>, y: Node<S>, q: seq<Packet>, hw: Hardware)
    requires Shaped(x.c) && Kept(x, y, q)
    ensures Kept(Video(g, x, hw), y, q)
  {
    hide Video;
    VideoIsNoTransport(g, x, hw);
  }

  lemma ConsumeKept<S(!new)>(g: Game<S>, x: Node<S>, y: Node<S>, qx: seq<Packet>, qy: seq<Packet>, m: Mail, taken: bool)
    requires Half(g, x, y, qx) && Half(g, y, x, qy) && Kept(x, y, qx)
    requires Possible(x, qx, Micro(m, taken)) && Consumes(x) && Drained(x, m) <= |qx|
    ensures Kept(Net(x, qx, m, taken), y, qx)
  {
    hide Checksum, Check, Sound, NStep, Net, StoreWindow, Own, Ledger, RanAgreed, AlarmsReal, SentOk, Arms, Sized,
        InFlight;
    OwnShape(g, x);
    OwnShape(g, y);
    ConsumeMeans(g, x, y, qx, m, taken);
    ConsumeRange(g, x, y, qx, qy);
    ConsumeDelivers(g, x, y, qx, m, taken);
    ConsumeSeeds(x, Net(x, qx, m, taken), x.window[x.c.rdn - 1]);
  }

  lemma ConsumeDelivers<S(!new)>(g: Game<S>, x: Node<S>, y: Node<S>, qx: seq<Packet>, m: Mail, taken: bool)
    requires Half(g, x, y, qx) && Delivered(x, y, qx)
    requires Possible(x, qx, Micro(m, taken)) && Consumes(x) && Drained(x, m) <= |qx|
    ensures Delivered(Net(x, qx, m, taken), y, qx)
  {
    hide Checksum, Check, Sound, NStep, Net, Own, Ledger, RanAgreed, AlarmsReal, SentOk, Arms, Sized, Genuine, Hears;
    OwnShape(g, y);
    ConsumeMeans(g, x, y, qx, m, taken);
    NoneAbove(g, x, y, qx);
    hide Half, InFlight, Batch, Consume;
    var x', k := Net(x, qx, m, taken), x.c.rdn - 1;
    var p := x.window[k];
    assert Pending(x) == Pending(x') + [p] && Pending(x)[k] == p;
    if Carries(Pending(x), Last(y)) {
      CarriesSplit(Pending(x), k, Last(y));
      assert Pending(x)[..k] == Pending(x') && Pending(x)[k..] == [p];
    }
  }

  lemma NoneAbove<S(!new)>(g: Game<S>, x: Node<S>, y: Node<S>, q: seq<Packet>)
    requires Half(g, x, y, q)
    ensures |y.enter| == |y.caps| - 2 && Shaped(x.c) && (x.high == -2 || x.high <= Last(y))
    ensures forall i :: 0 <= i < |Pending(x)| && IsInput(Pending(x)[i]) ==> 2 <= Pending(x)[i].at <= Last(y)
  {
    hide Record, Checksum, SentOk, Ledger, RanAgreed, AlarmsReal, Batch;
  }

  lemma ConsumeSeeds<S(!new)>(x: Node<S>, x': Node<S>, p: Packet)
    requires Seeded(x) && Shaped(x.c) && x.c.rdn > 0 && x'.c == Consume(x.c.(rdn := x.c.rdn - 1), p.f)
    requires IsInput(p) ==> 2 <= p.at <= Base(x) + 3 && p.f.stamp == Wrap(p.at)
    requires x'.high == if IsInput(p) && p.at >= x.high then p.at else x.high
    ensures Seeded(x')
  {
    hide Sound, Arms, StoreWindow;
    if IsInput(p) && Sound(p.f) {
      forall u | Base(x') < u < 8 ensures x'.c.ring[u] == IW_IDLE {
        assert u % 8 == u;
        StoredSlots(x.c.ring, p.at, p.f, u);
      }
    }
  }

  lemma QuietPending<S(!new)>(x: Node<S>, q: seq<Packet>, m: Mail, taken: bool)
    requires Shaped(x.c) && Readable(m) && Drained(x, m) <= |q| && !Consumes(x)
    ensures Pending(x) == []
    ensures !ReadCompletes(x, m) ==> Drained(x, m) == 0
  {
    hide NStep;
  }

  /** A micro-step of the receiver. */
  lemma NetKept<S(!new)>(g: Game<S>, x: Node<S>, y: Node<S>, qx: seq<Packet>, qy: seq<Packet>, m: Mail, taken: bool)
    requires Half(g, x, y, qx) && Half(g, y, x, qy) && Kept(x, y, qx)
    requires Possible(x, qx, Micro(m, taken)) && Timely(x, qx, Micro(m, taken))
    ensures Drained(x, m) <= |qx| && Kept(Net(x, qx, m, taken), y, qx[Drained(x, m)..])
  {
    hide Checksum, Check, Sound, NStep, Net, Own, Ledger, RanAgreed, AlarmsReal, SentOk, Arms, Sized, Genuine, Hears;
    OwnShape(g, x);
    DrainFits(g, x, y, qx, m);
    if Consumes(x) {
      ConsumeMeans(g, x, y, qx, m, taken);
      ConsumeKept(g, x, y, qx, qy, m, taken);
      assert qx[0..] == qx;
    } else {
      NetUntouched(x, qx, m, taken);
      QuietPending(x, qx, m, taken);
      if ReadCompletes(x, m) {
        ReadKeeps(g, x, y, qx, m, taken);
        if Carries(qx, Last(y)) {
          CarriesSplit(qx, Drained(x, m), Last(y));
        }
      } else {
        assert qx[0..] == qx;
      }
    }
  }

  // -------------------------------------------------------------- the sender moves

  /** The sender's history grows by packets that go into the stream with it. */
  lemma SenderKept<S(!new)>(x: Node<S>, y: Node<S>, y': Node<S>, q: seq<Packet>, more: seq<Packet>)
    requires Kept(x, y, q) && (y'.sent == y.sent || (y'.sent == y.sent + more && |more| == 1 && IsInput(more[0])))
    ensures Kept(x, y', q + more)
  {
    if y'.sent == y.sent {
      if Carries(q, Last(y)) {
        CarriesMore(q, more, Last(y));
      }
    } else {
      assert more[0].at == Last(y');
      CarriesMore(q, more, Last(y'));
    }
  }

  lemma LaunchedIs<S(!new)>(g: Game<S>, y: Node<S>, q: seq<Packet>, m: Mail, taken: bool)
    requires Shaped(y.c) && Readable(m) && Drained(y, m) <= |q|
    ensures Net(y, q, m, taken).sent == y.sent + Launched(y, taken)
    ensures Launched(y, taken) == [] || (|Launched(y, taken)| == 1 && IsInput(Launched(y, taken)[0]))
  {
    hide NStep, Check;
  }

  // -------------------------------------------------------------- runs

  predicate Whole<S(!new)>(g: Game<S>, s: Sys<S>) {
    Inv(g, s) && Kept(s.a, s.b, s.toA) && Kept(s.b, s.a, s.toB)
  }

  lemma StepAWhole<S(!new)>(g: Game<S>, s: Sys<S>, act: Act<S>)
    requires Whole(g, s) && Possible(s.a, s.toA, act) && Steppable(s, act) && Timely(s.a, s.toA, act)
    ensures Whole(g, StepA(g, s, act))
  {
    StepAKeeps(g, s, act);
    hide Half, Video, Net, Timely, Kept, Launched;
    match act
    case Frame(hw) =>
      VideoKept(g, s.a, s.b, s.toA, hw);
      VideoSends(g, s.a, hw);
      SenderKept(s.b, s.a, Video(g, s.a, hw), s.toB, []);
      assert s.toB + [] == s.toB;
    case Micro(m, taken) =>
      NetKept(g, s.a, s.b, s.toA, s.toB, m, taken);
      LaunchedIs(g, s.a, s.toA, m, taken);
      SenderKept(s.b, s.a, Net(s.a, s.toA, m, taken), s.toB, Launched(s.a, taken));
    case Glitch(sim) =>
      OtherKept(s.a, s.a.(sim := sim, dirty := s.a.dirty + {Tick(s.a)}), s.b, s.toA, s.toB);
    case Leave =>
      OtherKept(s.a, s.a.(off := true), s.b, s.toA, s.toB);
      SenderKept(s.b, s.a, s.a.(off := true), s.toB, [PEER_LEFT]);
  }

  lemma VideoSends<S(!new)>(g: Game<S>, n: Node<S>, hw: Hardware)
    requires Shaped(n.c)
    ensures Video(g, n, hw).sent == n.sent
  {
  }

  lemma OtherKept<S(!new)>(x: Node<S>, x': Node<S>, y: Node<S>, qx: seq<Packet>, qy: seq<Packet>)
    requires Kept(x, y, qx) && Kept(y, x, qy)
    requires x'.c == x.c && x'.window == x.window && x'.high == x.high && x'.sent == x.sent
    ensures Kept(x', y, qx) && Kept(y, x', qy)
  {
    assert Pending(x') == Pending(x);
  }

  lemma StepWhole<S(!new)>(g: Game<S>, s: Sys<S>, mv: Move<S>)
    requires Whole(g, s) && Enabled(s, mv) && TimelyMove(s, mv)
    ensures Whole(g, Step(g, s, mv))
  {
    hide Half, Kept;
    StepAWhole(g, Seen(s, mv), mv.act);
  }

  lemma {:induction false} RunWhole<S(!new)>(g: Game<S>, s: Sys<S>, mvs: seq<Move<S>>)
    requires Whole(g, s) && Legal(g, s, mvs, true)
    ensures Whole(g, After(g, s, mvs, true))
    decreases |mvs|
  {
    hide Whole;
    if mvs != [] {
      StepWhole(g, s, mvs[0]);
      RunWhole(g, Step(g, s, mvs[0]), mvs[1..]);
    }
  }

  lemma BeginWhole<S(!new)>(g: Game<S>, junkA: Cells, junkB: Cells)
    ensures Whole(g, Begin(g, junkA, junkB))
  {
    var s := Begin(g, junkA, junkB);
    FreshHalf(g, s.a, s.b, false, junkA, junkB);
    FreshHalf(g, s.b, s.a, true, junkB, junkA);
    hide Half;
  }

  /** Nothing is lost in any reachable state, seen from either console. */
  lemma ReachesWhole<S(!new)>(g: Game<S>, v: Sys<S>)
    requires Reaches(g, v)
    ensures Inv(g, v) && Delivered(v.a, v.b, v.toA) && Seeded(v.a)
  {
    hide Half;
    var s := if Reachable(g, v) then v else Mirror(v);
    var junkA, junkB, mvs :| Legal(g, Begin(g, junkA, junkB), mvs, true)
      && s == After(g, Begin(g, junkA, junkB), mvs, true);
    BeginWhole(g, junkA, junkB);
    RunWhole(g, Begin(g, junkA, junkB), mvs);
  }

  // -------------------------------------------------------------- the theorems

  /** NOTHING SENT IS LOST. A console whose stream and window are empty has a watermark
      that is the stamp of the last record its peer sent. */
  lemma EmptyMeansReceived<S(!new)>(g: Game<S>, s: Sys<S>)
    requires Reaches(g, s) && s.toA == [] && Pending(s.a) == []
    ensures s.b.sent != [] ==> s.a.high == Last(s.b)
  {
    hide Inv;
    ReachesWhole(g, s);
  }

  /** DEADLOCK FREEDOM. When the console that is not ahead has consumed everything its
      peer sent, and the peer has written at its current tick, its gate is open: the next
      frame at a boundary runs. So once both have written and consumed, not both stall. */
  lemma DeadlockFreedom<S(!new)>(g: Game<S>, s: Sys<S>, hw: Hardware)
    requires Reaches(g, s) && s.toA == [] && Pending(s.a) == []
    requires s.b.sent != [] && Last(s.b) == Tick(s.b) + CBD
    requires Boundary(s.a.c) && Tick(s.a) <= Tick(s.b)
    ensures Shaped(s.a.c) && |Video(g, s.a, hw).ran| == |s.a.ran| + 1 && Video(g, s.a, hw).c.adv
  {
    ReachesInv(g, s);
    EmptyMeansReceived(g, s);
    hide Half, Checksum, Mix, Captured, Hears, Ledger, RanAgreed, SentOk, AlarmsReal, Sized, Reaches;
    Parts(g, s.a, s.b, s.toA);
    GateDecides(g, s.a, s.b, s.toA, s.toB, hw);
    AdvanceMeans(g, s.a, hw);
  }
}
