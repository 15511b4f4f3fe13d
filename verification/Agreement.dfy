/** Whole runs of the pair, and what holds in every state they reach. */
module Agreement {
  import opened Bytes
  import opened Entry
  import opened Wire
  import opened Console
  import opened Lockstep
  import opened FrameProofs
  import opened NetProofs

  // -------------------------------------------------------------- runs

  datatype Move<!S> = Move(byA: bool, act: Act<S>)

  /** The relay makes one console host and the other guest; nothing else is known of
      what the session left in their cells. */
  function Begin<S(!new)>(g: Game<S>, junkA: Cells, junkB: Cells): Sys<S> {
    Sys(Fresh(g, false, junkA), Fresh(g, true, junkB), [], [])
  }

  function Seen<S>(s: Sys<S>, mv: Move<S>): Sys<S> {
    if mv.byA then s else Mirror(s)
  }

  predicate Steppable<S(!new)>(s: Sys<S>, act: Act<S>) {
    Shaped(s.a.c) && (act.Micro? ==> Drained(s.a, act.m) <= |s.toA|)
  }

  predicate Enabled<S(!new)>(s: Sys<S>, mv: Move<S>) {
    Possible(Seen(s, mv).a, Seen(s, mv).toA, mv.act) && Steppable(Seen(s, mv), mv.act)
  }

  predicate TimelyMove<S(!new)>(s: Sys<S>, mv: Move<S>) {
    Timely(Seen(s, mv).a, Seen(s, mv).toA, mv.act)
  }

  function Step<S(!new)>(g: Game<S>, s: Sys<S>, mv: Move<S>): Sys<S>
    requires Enabled(s, mv)
  {
    if mv.byA then StepA(g, s, mv.act) else Mirror(StepA(g, Mirror(s), mv.act))
  }

  /** A run: any interleaving of the two consoles' frames and micro-steps. `timely`
      says whether the environment predicate is imposed on its READs. */
  predicate Legal<S(!new)>(g: Game<S>, s: Sys<S>, mvs: seq<Move<S>>, timely: bool)
    decreases |mvs|
  {
    mvs == [] ||
    (Enabled(s, mvs[0]) && (timely ==> TimelyMove(s, mvs[0])) && Legal(g, Step(g, s, mvs[0]), mvs[1..], timely))
  }

  function After<S(!new)>(g: Game<S>, s: Sys<S>, mvs: seq<Move<S>>, timely: bool): Sys<S>
    requires Legal(g, s, mvs, timely)
    decreases |mvs|
  {
    if mvs == [] then s else After(g, Step(g, s, mvs[0]), mvs[1..], timely)
  }

  ghost predicate Reachable<S(!new)>(g: Game<S>, s: Sys<S>) {
    exists junkA, junkB, mvs :: Legal(g, Begin(g, junkA, junkB), mvs, true)
      && s == After(g, Begin(g, junkA, junkB), mvs, true)
  }

  /** A reachable pair, seen from either console: `a` is whichever one is looked from. */
  ghost predicate Reaches<S(!new)>(g: Game<S>, v: Sys<S>) {
    Reachable(g, v) || Reachable(g, Mirror(v))
  }

  // -------------------------------------------------------------- the invariant holds

  lemma FreshHalf<S(!new)>(g: Game<S>, x: Node<S>, y: Node<S>, guest: bool, j: Cells, k: Cells)
    requires x == Fresh(g, guest, j) && y == Fresh(g, !guest, k)
    ensures Half(g, x, y, [])
  {
    hide Checksum;
    assert Pending(x) == [];
  }

  lemma StepAKeeps<S(!new)>(g: Game<S>, s: Sys<S>, act: Act<S>)
    requires Inv(g, s) && Possible(s.a, s.toA, act) && Steppable(s, act) && Timely(s.a, s.toA, act)
    ensures Inv(g, StepA(g, s, act))
  {
    hide Half, Video, Net, Timely;
    match act
    case Frame(hw) => VideoKeeps(g, s.a, s.b, s.toA, s.toB, hw);
    case Micro(m, taken) => NetKeeps(g, s.a, s.b, s.toA, s.toB, m, taken);
    case Glitch(sim) =>
      var a' := s.a.(sim := sim, dirty := s.a.dirty + {Tick(s.a)});
      SameNetcodeMine(g, s.a, a', s.b, s.toA);
      SameNetcodeTheirs(g, s.a, a', s.b, s.toB);
    case Leave =>
      var a' := s.a.(off := true);
      SameNetcodeMine(g, s.a, a', s.b, s.toA);
      SameNetcodeTheirs(g, s.a, a', s.b, s.toB);
      LeaveKeeps(g, a', s.b, s.toB);
  }

  lemma StepKeeps<S(!new)>(g: Game<S>, s: Sys<S>, mv: Move<S>)
    requires Inv(g, s) && Enabled(s, mv) && TimelyMove(s, mv)
    ensures Inv(g, Step(g, s, mv))
  {
    hide Half;
    StepAKeeps(g, Seen(s, mv), mv.act);
  }

  lemma {:induction false} RunKeeps<S(!new)>(g: Game<S>, s: Sys<S>, mvs: seq<Move<S>>)
    requires Inv(g, s) && Legal(g, s, mvs, true)
    ensures Inv(g, After(g, s, mvs, true))
    decreases |mvs|
  {
    hide Inv;
    if mvs != [] {
      StepKeeps(g, s, mvs[0]);
      RunKeeps(g, Step(g, s, mvs[0]), mvs[1..]);
    }
  }

  /** Every state of every timely run satisfies the invariant. */
  lemma ReachableInv<S(!new)>(g: Game<S>, s: Sys<S>)
    requires Reachable(g, s)
    ensures Inv(g, s)
  {
    hide Half;
    var junkA, junkB, mvs :| Legal(g, Begin(g, junkA, junkB), mvs, true)
      && s == After(g, Begin(g, junkA, junkB), mvs, true);
    var s0 := Begin(g, junkA, junkB);
    FreshHalf(g, s0.a, s0.b, false, junkA, junkB);
    FreshHalf(g, s0.b, s0.a, true, junkB, junkA);
    RunKeeps(g, s0, mvs);
  }

  lemma ReachesInv<S(!new)>(g: Game<S>, v: Sys<S>)
    requires Reaches(g, v)
    ensures Inv(g, v)
  {
    hide Half, Reachable;
    if Reachable(g, v) {
      ReachableInv(g, v);
    } else {
      ReachableInv(g, Mirror(v));
    }
  }

  /** The parts of one half of the invariant. */
  lemma Parts<S(!new)>(g: Game<S>, x: Node<S>, y: Node<S>, q: seq<Packet>)
    requires Half(g, x, y, q)
    ensures Own(g, x) && Own(g, y) && Ledger(x) && RanAgreed(x, y) && Sized(x, q)
    ensures |x.enter| == |x.caps| - 2 >= 0 && |y.enter| == |y.caps| - 2 >= 0
    ensures Hears(g, x, y, q) && SentOk(g, x) && AlarmsReal(g, x, y)
  {
  }

  // -------------------------------------------------------------- the theorems

  /** INPUT AGREEMENT. Whatever the interleaving, a console that ran tick t ran it with
      the host's capture for t and the guest's capture for t, so two consoles that both
      ran t ran the same tick; and ticks 0 and 1 ran idle. */
  lemma InputAgreement<S(!new)>(g: Game<S>, s: Sys<S>, t: nat)
    requires Reaches(g, s)
    ensures t < |s.a.ran| ==> t < |s.a.caps| && t < |s.b.caps| && s.a.ran[t] == Agreed(s.a, s.b, t)
    ensures t < |s.a.ran| && t < |s.b.ran| ==> s.a.ran[t] == s.b.ran[t]
    ensures t < 2 && t < |s.a.ran| ==> s.a.ran[t] == (IW_IDLE, IW_IDLE)
  {
    ReachesInv(g, s);
    hide Half, Hears, Ledger, SentOk, AlarmsReal, Sized;
    Parts(g, s.a, s.b, s.toA);
    Parts(g, s.b, s.a, s.toB);
    if t < |s.a.ran| {
      RanIsAgreed(g, s.a, s.b, t);
    }
    if t < |s.b.ran| {
      RanIsAgreed(g, s.b, s.a, t);
    }
    GuestsDiffer(g, s.a, s.b, s.toA);
  }

  lemma GuestsDiffer<S(!new)>(g: Game<S>, x: Node<S>, y: Node<S>, q: seq<Packet>)
    requires Half(g, x, y, q)
    ensures x.c.ent.guest != y.c.ent.guest
  {
  }

  lemma RanIsAgreed<S(!new)>(g: Game<S>, x: Node<S>, y: Node<S>, t: nat)
    requires Own(g, x) && Own(g, y) && RanAgreed(x, y) && t < |x.ran|
    ensures t < |x.caps| && t < |y.caps| && x.ran[t] == Agreed(x, y, t)
    ensures t < 2 ==> x.ran[t] == (IW_IDLE, IW_IDLE)
  {
  }

  /** SKEW. The two ticks are never more than three apart, and the watermark is never
      further from its own tick than -2 or +5, for ever. */
  lemma BoundedSkew<S(!new)>(g: Game<S>, s: Sys<S>)
    requires Reaches(g, s)
    ensures -3 <= Tick(s.a) - Tick(s.b) <= 3
    ensures -2 <= s.a.high - Tick(s.a) <= 5
  {
    ReachesInv(g, s);
    hide Half;
    Skew(g, s.a, s.b, s.toA, s.toB);
  }

  /** WRAP TRANSPARENCY. In every reachable state the three byte comparisons of the
      netcode decide what unbounded ticks would decide: the gate, the watermark and the
      desync test, the latter two for every record waiting to be consumed. */
  lemma WrapTransparency<S(!new)>(g: Game<S>, s: Sys<S>, p: Packet)
    requires Reaches(g, s)
    ensures GateOpen(s.a.c) <==> s.a.high >= Tick(s.a)
    ensures Consumes(s.a) ==> s.a.c.rdn <= |s.a.window|
    ensures Consumes(s.a) && p == s.a.window[s.a.c.rdn - 1] && IsInput(p) ==>
      && (NotBefore(p.f.stamp, s.a.c.rwat) <==> p.at >= s.a.high)
      && (Wrap(p.f.stamp - CBD) == s.a.c.tick <==> p.at - CBD == Tick(s.a))
  {
    ReachesInv(g, s);
    BoundedSkew(g, s);
    hide Half, Hears, Ledger, RanAgreed, SentOk, AlarmsReal, Sized, Reaches, NotBefore, Own;
    Parts(g, s.a, s.b, s.toA);
    TickCells(g, s.a);
    SignedCompare(s.a.high, Tick(s.a));
    if Consumes(s.a) {
      ConsumeRange(g, s.a, s.b, s.toA, s.toB);
      if IsInput(p) && p == s.a.window[s.a.c.rdn - 1] {
        StampsCompare(s.a, p);
      }
    }
  }

  lemma TickCells<S(!new)>(g: Game<S>, n: Node<S>)
    requires Own(g, n)
    ensures Shaped(n.c) && n.c.tick == Wrap(Tick(n)) && n.c.rwat == Wrap(n.high) && |n.enter| == Tick(n) + 1
    ensures Tick(n) >= 0 ==> n.c.crcv == Crc(g, n.enter[Tick(n)])
  {
    hide Checksum;
  }

  lemma StampsCompare<S(!new)>(x: Node<S>, p: Packet)
    requires x.c.rwat == Wrap(x.high) && x.c.tick == Wrap(Tick(x)) && p.f.stamp == Wrap(p.at)
    requires -3 <= p.at - x.high <= 6 && -7 <= p.at - 2 - Tick(x) <= 6
    ensures NotBefore(p.f.stamp, x.c.rwat) <==> p.at >= x.high
    ensures Wrap(p.f.stamp - CBD) == x.c.tick <==> p.at - CBD == Tick(x)
  {
    SignedCompare(p.at, x.high);
    SlotOfWrapped(p.at, -CBD);
    WrapEqual(p.at - CBD, Tick(x));
  }

  /** RING SAFETY. Every tick from seven below the watermark up to it has its own slot,
      and the slot holds the peer's capture; a tick not yet run is always among them. */
  lemma RingSafety<S(!new)>(g: Game<S>, s: Sys<S>, u: nat)
    requires Reaches(g, s) && Base(s.a) - 7 <= u <= Base(s.a)
    ensures u < |s.b.caps| && |s.a.c.ring| == 8 && s.a.c.ring[u % 8] == s.b.caps[u]
    ensures Base(s.a) - 7 < Tick(s.a)
  {
    ReachesInv(g, s);
    BoundedSkew(g, s);
    hide Half, Own, Ledger, RanAgreed, SentOk, AlarmsReal, Sized, InFlight, Batch;
    Parts(g, s.a, s.b, s.toA);
    RingHolds(g, s.a, s.b, s.toA, u);
  }

  /** RECORD IMMUTABILITY. Two records sent with the same stamp are the same eight
      bytes, and two windows agree on every tick they share. */
  lemma RecordImmutability<S(!new)>(g: Game<S>, s: Sys<S>, i: nat, j: nat)
    requires Reaches(g, s) && i <= j < |s.a.sent|
    ensures s.a.sent[i].at <= s.a.sent[j].at
    ensures s.a.sent[i].at == s.a.sent[j].at ==> s.a.sent[i].f == s.a.sent[j].f
    ensures s.a.sent[j].at == s.a.sent[i].at + 1 ==>
      s.a.sent[j].f.b2 == s.a.sent[i].f.b1 && s.a.sent[j].f.b3 == s.a.sent[i].f.b2
    ensures s.a.sent[j].at == s.a.sent[i].at + 2 ==> s.a.sent[j].f.b3 == s.a.sent[i].f.b1
  {
    ReachesInv(g, s);
    hide Half, Own, Hears, Ledger, RanAgreed, AlarmsReal, Sized, Genuine, SentOk;
    Parts(g, s.a, s.b, s.toA);
    SentInOrder(g, s.a, i, j);
    GenuineAlike(g, s.a, s.a.sent[i], s.a.sent[j]);
  }

  lemma SentInOrder<S(!new)>(g: Game<S>, y: Node<S>, i: nat, j: nat)
    requires |y.enter| == |y.caps| - 2 && SentOk(g, y) && i <= j < |y.sent|
    ensures IsInput(y.sent[i]) && Genuine(g, y, y.sent[i])
    ensures IsInput(y.sent[j]) && Genuine(g, y, y.sent[j])
    ensures y.sent[i].at <= y.sent[j].at
  {
    hide Genuine;
  }

  lemma GenuineAlike<S(!new)>(g: Game<S>, y: Node<S>, p: Packet, r: Packet)
    requires |y.enter| == |y.caps| - 2 && IsInput(p) && IsInput(r)
    requires Genuine(g, y, p) && Genuine(g, y, r)
    ensures r.at == p.at ==> r.f == p.f
    ensures r.at == p.at + 1 ==> r.f.b2 == p.f.b1 && r.f.b3 == p.f.b2
    ensures r.at == p.at + 2 ==> r.f.b3 == p.f.b1
  {
    hide Checksum, Check;
  }

  /** READS NEVER OVERREACH. A READ that is possible at all asks for at least one and at
      most 31 whole frames, all of which have arrived. */
  lemma ReadsFit<S(!new)>(g: Game<S>, s: Sys<S>, m: Mail, taken: bool)
    requires Reaches(g, s) && Possible(s.a, s.toA, Micro(m, taken))
    ensures Drained(s.a, m) <= |s.toA|
    ensures ReadCompletes(s.a, m) ==> 1 <= Drained(s.a, m) <= 31 && s.a.c.rdn == 8 * Drained(s.a, m)
    ensures s.a.c.nst.Cons? ==> s.a.c.rdn <= |s.a.window| <= 31
  {
    ReachesInv(g, s);
    hide Half, Own, Ledger, RanAgreed, AlarmsReal, SentOk, InFlight;
    Parts(g, s.a, s.b, s.toA);
  }

  /** The transport is slower than the tick but not unboundedly so: between two records
      a console sends, its stamp moves on by at most six, by the lockstep alone. */
  lemma StampsMoveSlowly<S(!new)>(g: Game<S>, s: Sys<S>, i: nat)
    requires Reaches(g, s) && i < |s.a.sent|
    ensures Before(s.a.sent, i) <= s.a.sent[i].at <= Before(s.a.sent, i) + 6
    ensures s.a.sent[i].f.stamp == Wrap(s.a.sent[i].at) && s.a.sent[i].at >= 2
  {
    ReachesInv(g, s);
    hide Half, Hears, Ledger, RanAgreed, AlarmsReal, Sized, Checksum, Own;
    Parts(g, s.a, s.b, s.toA);
    assert Genuine(g, s.a, s.a.sent[i]);
    if i > 0 {
      assert IsInput(s.a.sent[i - 1]);
    }
  }
}
