/** What does come round. A transport whose transactions are answered writes again within a
    bounded number of micro-steps, whatever the answers are; one whose transactions succeed
    reads everything that waits; so the console that is not ahead runs its next tick. */
module Progress {
  import opened Bytes
  import opened Entry
  import opened Wire
  import opened Console
  import opened Lockstep
  import opened FrameProofs
  import opened NetProofs
  import opened Agreement
  import opened Delivery

  // -------------------------------------------------------------- the machine never sleeps

  const BATCH := 31         // records in the largest reply
  const CYCLE := 38         // micro-steps from one WRITE to the next, at most

  /** The transport of a match: neither parked nor waiting to report a failure. */
  predicate Awake(c: Cells) {
    !c.nst.Idle? && !c.nst.Fail? && (c.nst.Cons? ==> c.rdn <= BATCH)
  }

  /** A transaction that has been launched has been answered, well or badly. */
  predicate Answered(c: Cells, m: Mail) {
    c.nst.Wack? || c.nst.Sack? || c.nst.Rack? ==> Acked(c, m)
  }

  /** How many micro-steps, at most, until the next one launches a WRITE. */
  function UntilWrite(c: Cells): (n: nat)
    ensures Awake(c) ==> n < CYCLE
  {
    match c.nst
    case Wiss => 0
    case Cons => c.rdn + 1
    case Rack => BATCH + 2
    case Riss => BATCH + 3
    case Sack => BATCH + 4
    case Siss => BATCH + 5
    case Wack => BATCH + 6
    case Idle => 0
    case Fail => 0
  }

  lemma MicroTowardsWrite(c: Cells, m: Mail)
    requires Shaped(c) && Readable(m) && Awake(c)
    ensures Awake(NStep(c, m))
    ensures Answered(c, m) && !c.nst.Wiss? ==> UntilWrite(NStep(c, m)) < UntilWrite(c)
  {
    hide Sound, Checksum, Arms, StoreWindow;
  }

  // -------------------------------------------------------------- one move, seen from `a`

  predicate Steps<S(!new)>(mv: Move<S>) {
    mv.byA && mv.act.Micro?
  }

  /** A move that is not a micro-step of `a` leaves its transport as it is. */
  lemma Elsewhere<S(!new)>(g: Game<S>, s: Sys<S>, mv: Move<S>)
    requires Inv(g, s) && Enabled(s, mv) && !Steps(mv)
    ensures var t := Step(g, s, mv);
      && t.a.c.nst == s.a.c.nst && t.a.c.rdn == s.a.c.rdn && t.a.sent == s.a.sent && t.a.high == s.a.high
      && Pending(t.a) == Pending(s.a) && Tick(t.a) >= Tick(s.a) && |t.a.ran| >= |s.a.ran|
      && s.toA <= t.toA
  {
    hide Inv, Checksum, Mix, Captured;
    if mv.byA && mv.act.Frame? {
      assert Shaped(s.a.c);
      VideoIsNoTransport(g, s.a, mv.act.hw);
    }
  }

  lemma Micro<S(!new)>(g: Game<S>, s: Sys<S>, mv: Move<S>)
    requires Inv(g, s) && Enabled(s, mv) && Steps(mv)
    ensures var t := Step(g, s, mv);
      && t.a == Net(s.a, s.toA, mv.act.m, mv.act.taken) && t.a.c == NStep(s.a.c, mv.act.m)
      && t.toA == s.toA[Drained(s.a, mv.act.m)..] && t.a.sent == s.a.sent + Launched(s.a, mv.act.taken)
      && Tick(t.a) == Tick(s.a) && t.a.ran == s.a.ran && t.a.high >= s.a.high
  {
    hide Inv, NStep, Outgoing;
  }

  // -------------------------------------------------------------- whole runs

  function Micros<S(!new)>(mvs: seq<Move<S>>): nat {
    if mvs == [] then 0 else (if Steps(mvs[0]) then 1 else 0) + Micros(mvs[1..])
  }

  /** In this run every transaction `a` launches is answered, and every WRITE is taken; what
      STATUS reports, and whether a transaction fails, is left open. */
  ghost predicate AllAnswered<S(!new)>(g: Game<S>, s: Sys<S>, mvs: seq<Move<S>>)
    requires Legal(g, s, mvs, true)
    decreases |mvs|
  {
    mvs == [] ||
    ((Steps(mvs[0]) ==> Answered(s.a.c, mvs[0].act.m) && (s.a.c.nst.Wiss? ==> mvs[0].act.taken))
     && AllAnswered(g, Step(g, s, mvs[0]), mvs[1..]))
  }

  lemma {:induction false} RunAwake<S(!new)>(g: Game<S>, s: Sys<S>, mvs: seq<Move<S>>)
    requires Inv(g, s) && Legal(g, s, mvs, true) && Awake(s.a.c)
    ensures Awake(After(g, s, mvs, true).a.c)
    decreases |mvs|
  {
    hide Inv, NStep, Step, Awake;
    if mvs != [] {
      StepAwake(g, s, mvs[0]);
      StepKeeps(g, s, mvs[0]);
      RunAwake(g, Step(g, s, mvs[0]), mvs[1..]);
    }
  }

  lemma StepAwake<S(!new)>(g: Game<S>, s: Sys<S>, mv: Move<S>)
    requires Inv(g, s) && Enabled(s, mv) && Awake(s.a.c)
    ensures Awake(Step(g, s, mv).a.c)
  {
    hide Inv, NStep, Step;
    if Steps(mv) {
      Micro(g, s, mv);
      MicroTowardsWrite(s.a.c, mv.act.m);
    } else {
      Elsewhere(g, s, mv);
    }
  }

  /** NEVER PARKED. In no reachable state is a console's transport idle or failed. */
  lemma NeverParked<S(!new)>(g: Game<S>, s: Sys<S>)
    requires Reaches(g, s)
    ensures Inv(g, s) && Awake(s.a.c) && !s.a.c.nst.Idle? && !s.a.c.nst.Fail?
  {
    hide Half;
    var r := if Reachable(g, s) then s else Mirror(s);
    var junkA, junkB, mvs :| Legal(g, Begin(g, junkA, junkB), mvs, true)
      && r == After(g, Begin(g, junkA, junkB), mvs, true);
    var s0 := Begin(g, junkA, junkB);
    FreshHalf(g, s0.a, s0.b, false, junkA, junkB);
    FreshHalf(g, s0.b, s0.a, true, junkB, junkA);
    RunKeeps(g, s0, mvs);
    if Reachable(g, s) {
      RunAwake(g, s0, mvs);
    } else {
      MirrorRun(g, s0, mvs);
      RunAwake(g, Mirror(s0), Mirrored(mvs));
    }
  }

  function Mirrored<S(!new)>(mvs: seq<Move<S>>): (r: seq<Move<S>>)
    ensures |r| == |mvs|
  {
    if mvs == [] then [] else [mvs[0].(byA := !mvs[0].byA)] + Mirrored(mvs[1..])
  }

  /** A run with the two consoles exchanged is a run. */
  lemma {:induction false} MirrorRun<S(!new)>(g: Game<S>, s: Sys<S>, mvs: seq<Move<S>>)
    requires Legal(g, s, mvs, true)
    ensures Legal(g, Mirror(s), Mirrored(mvs), true)
    ensures After(g, Mirror(s), Mirrored(mvs), true) == Mirror(After(g, s, mvs, true))
    decreases |mvs|
  {
    hide StepA, Possible, Timely;
    if mvs != [] {
      var mv := mvs[0].(byA := !mvs[0].byA);
      assert Mirror(Mirror(s)) == s;
      assert Seen(Mirror(s), mv) == Seen(s, mvs[0]);
      assert Step(g, Mirror(s), mv) == Mirror(Step(g, s, mvs[0]));
      MirrorRun(g, Step(g, s, mvs[0]), mvs[1..]);
    }
  }

  // -------------------------------------------------------------- a WRITE comes round

  /** The last record is no newer than this console's own tick allows. */
  lemma LastIsOwn<S(!new)>(g: Game<S>, s: Sys<S>)
    requires Inv(g, s)
    ensures Shaped(s.a.c) && Last(s.a) <= Tick(s.a) + CBD
  {
    hide Half, Own, Ledger, RanAgreed, SentOk, AlarmsReal, Sized, Batch, InFlight;
    Parts(g, s.a, s.b, s.toA);
    Parts(g, s.b, s.a, s.toB);
    OwnShape(g, s.a);
  }

  lemma MicroWrites<S(!new)>(g: Game<S>, s: Sys<S>, mv: Move<S>)
    requires Inv(g, s) && Enabled(s, mv) && Steps(mv)
    ensures var t := Step(g, s, mv);
      if s.a.c.nst.Wiss? && mv.act.taken then
        |t.a.sent| == |s.a.sent| + 1 && Last(t.a) == Tick(s.a) + CBD && t.a.sent[|s.a.sent|].f == Outgoing(s.a.c)
      else t.a.sent == s.a.sent
  {
    hide Inv, NStep, Outgoing, Step;
    Micro(g, s, mv);
  }

  lemma {:induction false} WriteComes<S(!new)>(g: Game<S>, s: Sys<S>, mvs: seq<Move<S>>, n: nat, tick: int)
    requires Inv(g, s) && Awake(s.a.c) && Legal(g, s, mvs, true) && AllAnswered(g, s, mvs)
    requires n <= |s.a.sent| && tick <= Tick(s.a)
    requires Micros(mvs) > UntilWrite(s.a.c) || (|s.a.sent| > n && Last(s.a) >= tick + CBD)
    ensures var t := After(g, s, mvs, true);
      Inv(g, t) && |t.a.sent| > n && tick + CBD <= Last(t.a) <= Tick(t.a) + CBD
    decreases |mvs|
  {
    hide Inv, NStep, Step, Awake, UntilWrite, Answered;
    LastIsOwn(g, s);
    if mvs != [] {
      StepKeeps(g, s, mvs[0]);
      StepAwake(g, s, mvs[0]);
      if Steps(mvs[0]) {
        Micro(g, s, mvs[0]);
        MicroWrites(g, s, mvs[0]);
        MicroTowardsWrite(s.a.c, mvs[0].act.m);
      } else {
        Elsewhere(g, s, mvs[0]);
        SameCounts(s.a.c, Step(g, s, mvs[0]).a.c, 0);
      }
      WriteComes(g, Step(g, s, mvs[0]), mvs[1..], n, tick);
    }
  }

  /** A WRITE COMES ROUND. In every run from a reachable state, among any 38 micro-steps of a
      console whose transactions are answered there is one that sends a record, stamped two
      ticks ahead of the tick it was sent on: whatever STATUS reports, whichever transactions
      fail, and whatever else happens meanwhile. */
  lemma WritesComeRound<S(!new)>(g: Game<S>, s: Sys<S>, mvs: seq<Move<S>>)
    requires Reaches(g, s) && Legal(g, s, mvs, true) && AllAnswered(g, s, mvs) && Micros(mvs) >= CYCLE
    ensures var t := After(g, s, mvs, true);
      |t.a.sent| > |s.a.sent| && Tick(s.a) + CBD <= Last(t.a) <= Tick(t.a) + CBD
  {
    hide Inv, Reaches, Awake;
    NeverParked(g, s);
    WriteComes(g, s, mvs, |s.a.sent|, Tick(s.a));
  }

  // -------------------------------------------------------------- what waits is read

  /** A record stamped `at` or later is among these packets. */
  predicate Bears(ps: seq<Packet>, at: int) {
    exists i :: 0 <= i < |ps| && IsInput(ps[i]) && ps[i].at >= at
  }

  /** A record stamped `at` or later has been consumed, is being consumed, or is one of the
      first `left` on the way. */
  predicate Coming<S(!new)>(x: Node<S>, q: seq<Packet>, left: nat, at: int) {
    left <= |q| && (x.high >= at || Bears(Pending(x), at) || Bears(q[..left], at))
  }

  /** An answer that serves: no error, a live socket, and a STATUS that reports at least one
      whole frame when one has arrived. */
  predicate Serves<S(!new)>(n: Node<S>, q: seq<Packet>, m: Mail) {
    && Answered(n.c, m)
    && (n.c.nst.Wack? || n.c.nst.Sack? || n.c.nst.Rack? ==> m.err == 0)
    && (n.c.nst.Sack? ==> m.devst == 1 && (q != [] ==> m.avhi * 256 + m.avlo >= 8))
  }

  ghost predicate AllServed<S(!new)>(g: Game<S>, s: Sys<S>, mvs: seq<Move<S>>)
    requires Legal(g, s, mvs, true)
    decreases |mvs|
  {
    mvs == [] ||
    ((Steps(mvs[0]) ==> Serves(s.a, s.toA, mvs[0].act.m)) && AllServed(g, Step(g, s, mvs[0]), mvs[1..]))
  }

  /** How many served micro-steps, at most, until the first `left` packets are consumed. */
  function Work(c: Cells, left: nat): nat {
    left * (CYCLE + 1) +
    match c.nst
    case Cons => c.rdn + 7
    case Wiss => 6
    case Wack => 5
    case Siss => 4
    case Sack => 3
    case Riss => 2
    case Rack => 1
    case Idle => 0
    case Fail => 0
  }

  function LeftAfter<S(!new)>(n: Node<S>, m: Mail, left: nat): nat {
    if Drained(n, m) < left then left - Drained(n, m) else 0
  }

  lemma MicroWorks<S(!new)>(g: Game<S>, s: Sys<S>, mv: Move<S>, left: nat)
    requires Inv(g, s) && Enabled(s, mv) && Steps(mv) && Awake(s.a.c) && Serves(s.a, s.toA, mv.act.m)
    requires left <= |s.toA| && (left > 0 || Consumes(s.a))
    ensures Work(Step(g, s, mv).a.c, LeftAfter(s.a, mv.act.m, left)) < Work(s.a.c, left)
  {
    hide Own, Ledger, RanAgreed, SentOk, AlarmsReal, Hears, Outgoing, Consume, Failed;
    Micro(g, s, mv);
    Parts(g, s.a, s.b, s.toA);
    hide Half;
    var c, m := s.a.c, mv.act.m;
    if c.nst.Cons? && c.rdn > 0 {
      ConsumeStays(c.(rdn := c.rdn - 1), m.reply[Cursor(c)]);
    }
    assert c.nst.Rack? ==> 1 <= Drained(s.a, m) <= BATCH;
  }

  lemma ConsumeStays(c: Cells, f: Frame)
    requires Shaped(c)
    ensures Consume(c, f).nst == c.nst && Consume(c, f).rdn == c.rdn
  {
    hide Sound, Arms, StoreWindow;
  }

  lemma BearsSplit(ps: seq<Packet>, k: nat, left: nat, at: int)
    requires left <= |ps| && k <= |ps| && Bears(ps[..left], at)
    ensures Bears(ps[..k], at) || (k < left && Bears(ps[k..][..left - k], at))
  {
    var i :| 0 <= i < left && IsInput(ps[..left][i]) && ps[..left][i].at >= at;
    if i < k {
      assert ps[..k][i] == ps[i];
    } else {
      assert ps[k..][..left - k][i - k] == ps[i];
    }
  }

  lemma MicroBrings<S(!new)>(g: Game<S>, s: Sys<S>, mv: Move<S>, left: nat, at: int)
    requires Inv(g, s) && Enabled(s, mv) && Steps(mv) && Coming(s.a, s.toA, left, at)
    ensures Coming(Step(g, s, mv).a, Step(g, s, mv).toA, LeftAfter(s.a, mv.act.m, left), at)
  {
    hide Half, NStep, Net, Outgoing, Step, Consume;
    var x, m := s.a, mv.act.m;
    Micro(g, s, mv);
    OwnShape(g, x) by { Parts(g, s.a, s.b, s.toA); }
    if Consumes(x) {
      ConsumeMeans(g, x, s.b, s.toA, m, mv.act.taken);
      ConsumeBrings(x, Step(g, s, mv).a, at);
    } else {
      QuietPending(x, s.toA, m, mv.act.taken);
      NetUntouched(x, s.toA, m, mv.act.taken);
      DrainFits(g, x, s.b, s.toA, m);
      if x.high < at {
        BearsSplit(s.toA, Drained(x, m), left, at);
        if ReadCompletes(x, m) {
          FetchedPending(x, s.toA, m, mv.act.taken);
        }
      }
    }
  }

  lemma FetchedPending<S(!new)>(x: Node<S>, q: seq<Packet>, m: Mail, taken: bool)
    requires Shaped(x.c) && Readable(m) && Drained(x, m) <= |q| && ReadCompletes(x, m) && m.rxlo == x.c.rdn
    ensures Pending(Net(x, q, m, taken)) == q[..Drained(x, m)]
  {
  }

  lemma ConsumeBrings<S(!new)>(x: Node<S>, x': Node<S>, at: int)
    requires Consumes(x) && x.c.rdn <= |x.window| && Pending(x') == x.window[..x.c.rdn - 1]
    requires var p := x.window[x.c.rdn - 1]; x'.high == if IsInput(p) && p.at >= x.high then p.at else x.high
    ensures Bears(Pending(x), at) || x.high >= at ==> Bears(Pending(x'), at) || x'.high >= at
  {
    if Bears(Pending(x), at) {
      var i :| 0 <= i < |Pending(x)| && IsInput(Pending(x)[i]) && Pending(x)[i].at >= at;
      if i < x.c.rdn - 1 {
        assert Pending(x')[i] == Pending(x)[i];
      }
    }
  }

  lemma ElsewhereBrings<S(!new)>(g: Game<S>, s: Sys<S>, mv: Move<S>, left: nat, at: int)
    requires Inv(g, s) && Enabled(s, mv) && !Steps(mv) && Coming(s.a, s.toA, left, at)
    ensures Coming(Step(g, s, mv).a, Step(g, s, mv).toA, left, at)
  {
    hide Inv, Step;
    Elsewhere(g, s, mv);
    assert Step(g, s, mv).toA[..left] == s.toA[..left];
  }

  lemma {:induction false} ReadComes<S(!new)>(g: Game<S>, s: Sys<S>, mvs: seq<Move<S>>, left: nat, at: int)
    requires Inv(g, s) && Awake(s.a.c) && Legal(g, s, mvs, true) && AllServed(g, s, mvs)
    requires Coming(s.a, s.toA, left, at) && (Micros(mvs) > Work(s.a.c, left) || s.a.high >= at)
    ensures Inv(g, After(g, s, mvs, true)) && After(g, s, mvs, true).a.high >= at
    decreases |mvs|
  {
    hide Inv, NStep, Step, Awake, Work, Serves, Bears;
    if mvs != [] {
      StepKeeps(g, s, mvs[0]);
      StepAwake(g, s, mvs[0]);
      if Steps(mvs[0]) {
        Micro(g, s, mvs[0]);
        MicroBrings(g, s, mvs[0], left, at);
        if left > 0 || Consumes(s.a) {
          MicroWorks(g, s, mvs[0], left);
        } else {
          NoneLeft(s.a, s.toA, at);
        }
        ReadComes(g, Step(g, s, mvs[0]), mvs[1..], LeftAfter(s.a, mvs[0].act.m, left), at);
      } else {
        Elsewhere(g, s, mvs[0]);
        SameCounts(s.a.c, Step(g, s, mvs[0]).a.c, left);
        ElsewhereBrings(g, s, mvs[0], left, at);
        ReadComes(g, Step(g, s, mvs[0]), mvs[1..], left, at);
      }
    }
  }

  lemma SameCounts(c: Cells, d: Cells, left: nat)
    requires c.nst == d.nst && c.rdn == d.rdn
    ensures UntilWrite(c) == UntilWrite(d) && Work(c, left) == Work(d, left)
  {
  }

  lemma NoneLeft<S(!new)>(x: Node<S>, q: seq<Packet>, at: int)
    requires Coming(x, q, 0, at) && !Consumes(x)
    ensures x.high >= at
  {
    assert Pending(x) == [] && q[..0] == [];
  }

  lemma DeliveredComes<S(!new)>(x: Node<S>, y: Node<S>, q: seq<Packet>)
    requires Delivered(x, y, q) && y.sent != []
    ensures Coming(x, q, |q|, Last(y))
  {
    assert q[..|q|] == q;
  }

  /** WHAT WAITS IS READ. However much waits for a console, once its transport has been served
      for thirty-nine micro-steps a record and one cycle more, it knows every record its peer
      had sent when that began. */
  lemma ReadsComeRound<S(!new)>(g: Game<S>, s: Sys<S>, mvs: seq<Move<S>>)
    requires Reaches(g, s) && Legal(g, s, mvs, true) && AllServed(g, s, mvs) && s.b.sent != []
    requires Micros(mvs) > (CYCLE + 1) * (|s.toA| + 1)
    ensures After(g, s, mvs, true).a.high >= Last(s.b)
  {
    hide Inv, Reaches, Delivered;
    NeverParked(g, s);
    ReachesWhole(g, s);
    DeliveredComes(s.a, s.b, s.toA);
    ReadComes(g, s, mvs, |s.toA|, Last(s.b));
  }

  // -------------------------------------------------------------- a tick comes round

  function Frames<S(!new)>(mvs: seq<Move<S>>): nat {
    if mvs == [] then 0 else (if mvs[0].byA && mvs[0].act.Frame? then 1 else 0) + Frames(mvs[1..])
  }

  /** How many frames until a console's next boundary has been. */
  function UntilBoundary(c: Cells): int {
    if c.ent.phase == 0 then 1 else 5 - c.ent.phase
  }

  /** The next tick to run is the number of those that have; its gate is open once the
      watermark has reached it. */
  lemma FrameRuns<S(!new)>(g: Game<S>, s: Sys<S>, hw: Hardware)
    requires Inv(g, s)
    ensures Shaped(s.a.c) && s.a.c.ent.net
    ensures var n := Video(g, s.a, hw);
      if s.a.c.ent.phase != 0 then UntilBoundary(n.c) == UntilBoundary(s.a.c) - 1 && n.ran == s.a.ran
      else |n.ran| == |s.a.ran| + (if s.a.high >= |s.a.ran| then 1 else 0)
  {
    hide Half, Hears, Ledger, RanAgreed, SentOk, AlarmsReal, Sized, Checksum, Mix, Captured;
    Parts(g, s.a, s.b, s.toA);
    if s.a.c.ent.phase == 0 {
      GateDecides(g, s.a, s.b, s.toA, s.toB, hw);
      AdvanceMeans(g, s.a, hw);
    }
  }

  lemma PhaseStays<S(!new)>(g: Game<S>, s: Sys<S>, mv: Move<S>)
    requires Inv(g, s) && Enabled(s, mv) && !(mv.byA && mv.act.Frame?)
    ensures var t := Step(g, s, mv);
      t.a.c.ent.phase == s.a.c.ent.phase && t.a.ran == s.a.ran && t.a.high >= s.a.high
  {
    hide Inv, Sound, Arms, StoreWindow, Outgoing;
  }

  lemma {:induction false} TickComes<S(!new)>(g: Game<S>, s: Sys<S>, mvs: seq<Move<S>>, n: nat)
    requires Inv(g, s) && Legal(g, s, mvs, true) && |s.a.ran| >= n && s.a.high >= n
    requires Frames(mvs) >= UntilBoundary(s.a.c) || |s.a.ran| > n
    ensures |After(g, s, mvs, true).a.ran| > n
    decreases |mvs|
  {
    hide Inv, NStep, Video, Net;
    if mvs != [] {
      StepKeeps(g, s, mvs[0]);
      if mvs[0].byA && mvs[0].act.Frame? {
        FrameRuns(g, s, mvs[0].act.hw);
        Elsewhere(g, s, mvs[0]);
      } else {
        PhaseStays(g, s, mvs[0]);
      }
      TickComes(g, Step(g, s, mvs[0]), mvs[1..], n);
    } else {
      PhaseRange(g, s);
    }
  }

  lemma PhaseRange<S(!new)>(g: Game<S>, s: Sys<S>)
    requires Inv(g, s)
    ensures UntilBoundary(s.a.c) >= 1 && |s.a.ran| <= Tick(s.a) + 1
  {
    hide Hears, Ledger, RanAgreed, SentOk, AlarmsReal, Sized, Checksum;
  }

  lemma {:induction false} OnlyGrows<S(!new)>(g: Game<S>, s: Sys<S>, mvs: seq<Move<S>>)
    requires Inv(g, s) && Legal(g, s, mvs, true)
    ensures var t := After(g, s, mvs, true);
      Inv(g, t) && |t.a.ran| >= |s.a.ran| && Tick(t.a) >= Tick(s.a) && t.a.high >= s.a.high
    decreases |mvs|
  {
    hide Inv, Step, NStep;
    if mvs != [] {
      StepKeeps(g, s, mvs[0]);
      if Steps(mvs[0]) {
        Micro(g, s, mvs[0]);
      } else {
        Elsewhere(g, s, mvs[0]);
      }
      OnlyGrows(g, Step(g, s, mvs[0]), mvs[1..]);
    }
  }

  lemma {:induction false} JoinRuns<S(!new)>(g: Game<S>, s: Sys<S>, us: seq<Move<S>>, vs: seq<Move<S>>)
    requires Legal(g, s, us, true) && Legal(g, After(g, s, us, true), vs, true)
    ensures Legal(g, s, us + vs, true) && After(g, s, us + vs, true) == After(g, After(g, s, us, true), vs, true)
    decreases |us|
  {
    hide Enabled, TimelyMove, Step;
    if us == [] {
      assert us + vs == vs;
    } else {
      assert (us + vs)[0] == us[0] && (us + vs)[1..] == us[1..] + vs;
      JoinRuns(g, Step(g, s, us[0]), us[1..], vs);
    }
  }

  lemma StaysReachable<S(!new)>(g: Game<S>, s: Sys<S>, mvs: seq<Move<S>>)
    requires Reaches(g, s) && Legal(g, s, mvs, true)
    ensures Reaches(g, After(g, s, mvs, true))
  {
    var r, ms := s, mvs;
    if !Reachable(g, s) {
      MirrorRun(g, s, mvs);
      r, ms := Mirror(s), Mirrored(mvs);
    }
    var junkA, junkB, us :| Legal(g, Begin(g, junkA, junkB), us, true)
      && r == After(g, Begin(g, junkA, junkB), us, true);
    JoinRuns(g, Begin(g, junkA, junkB), us, ms);
    assert Mirror(Mirror(After(g, s, mvs, true))) == After(g, s, mvs, true);
  }

  /** NOBODY WAITS FOR EVER. Take any reachable state and the console in it that is not ahead.
      Let its peer's transport be answered for one cycle (38 micro-steps); then let its own be
      served while it reads what waits; then give it four more frames. Whatever else the two
      consoles did meanwhile, it has run another tick. */
  lemma NobodyWaitsForEver<S(!new)>(
      g: Game<S>, s: Sys<S>, us: seq<Move<S>>, vs: seq<Move<S>>, ws: seq<Move<S>>)
    requires Reaches(g, s) && Tick(s.a) <= Tick(s.b)
    requires Legal(g, s, us, true) && Legal(g, Mirror(s), Mirrored(us), true)
    requires AllAnswered(g, Mirror(s), Mirrored(us)) && Micros(Mirrored(us)) >= CYCLE
    requires var s1 := After(g, s, us, true);
      && Legal(g, s1, vs, true) && AllServed(g, s1, vs) && Micros(vs) > (CYCLE + 1) * (|s1.toA| + 1)
      && Legal(g, After(g, s1, vs, true), ws, true) && Frames(ws) >= 4
    ensures |After(g, After(g, After(g, s, us, true), vs, true), ws, true).a.ran| > |s.a.ran|
  {
    hide Inv, Reaches, AllAnswered, AllServed, Micros, UntilBoundary;
    ReachesInv(g, s);
    MirrorRun(g, s, us);
    var s1 := After(g, s, us, true);
    assert Reaches(g, Mirror(s)) by { MirrorReaches(g, s); }
    WritesComeRound(g, Mirror(s), Mirrored(us));
    StaysReachable(g, s, us);
    ReadsComeRound(g, s1, vs);
    var s2 := After(g, s1, vs, true);
    OnlyGrows(g, s, us);
    OnlyGrows(g, s1, vs);
    PhaseRange(g, s);
    assert UntilBoundary(s2.a.c) <= 4 by { PhaseAtMost(g, s2); }
    TickComes(g, s2, ws, |s.a.ran|);
  }

  lemma PhaseAtMost<S(!new)>(g: Game<S>, s: Sys<S>)
    requires Inv(g, s)
    ensures UntilBoundary(s.a.c) <= 4
  {
    hide Hears, Ledger, RanAgreed, SentOk, AlarmsReal, Sized, Checksum;
  }

  lemma MirrorReaches<S(!new)>(g: Game<S>, s: Sys<S>)
    requires Reaches(g, s)
    ensures Reaches(g, Mirror(s))
  {
    assert Mirror(Mirror(s)) == s;
  }
}
