/** Paths of the pair: what one console's frames and transactions make reachable, and the
    opening of a match in which the host runs three ticks before the guest runs any. */
module Paths {
  import opened Bytes
  import opened Entry
  import opened Wire
  import opened Console
  import opened Lockstep
  import opened FrameProofs
  import opened NetProofs
  import opened Agreement

  // -------------------------------------------------------------- paths

  ghost predicate CanReach<S(!new)>(g: Game<S>, timely: bool, s: Sys<S>, s': Sys<S>) {
    exists mvs :: Legal(g, s, mvs, timely) && After(g, s, mvs, timely) == s'
  }

  lemma {:induction false} Concat<S(!new)>(g: Game<S>, timely: bool, s: Sys<S>, xs: seq<Move<S>>, ys: seq<Move<S>>)
    requires Legal(g, s, xs, timely) && Legal(g, After(g, s, xs, timely), ys, timely)
    ensures Legal(g, s, xs + ys, timely)
    ensures After(g, s, xs + ys, timely) == After(g, After(g, s, xs, timely), ys, timely)
    decreases |xs|
  {
    hide Step, Enabled;
    if xs == [] {
      assert xs + ys == ys;
    } else {
      assert (xs + ys)[0] == xs[0] && (xs + ys)[1..] == xs[1..] + ys;
      Concat(g, timely, Step(g, s, xs[0]), xs[1..], ys);
    }
  }

  lemma Then<S(!new)>(g: Game<S>, timely: bool, s: Sys<S>, t: Sys<S>, u: Sys<S>)
    requires CanReach(g, timely, s, t) && CanReach(g, timely, t, u)
    ensures CanReach(g, timely, s, u)
  {
    hide Legal, After;
    var xs :| Legal(g, s, xs, timely) && After(g, s, xs, timely) == t;
    var ys :| Legal(g, t, ys, timely) && After(g, t, ys, timely) == u;
    Concat(g, timely, s, xs, ys);
  }

  lemma OneStep<S(!new)>(g: Game<S>, timely: bool, s: Sys<S>, act: Act<S>)
    requires Possible(s.a, s.toA, act) && Steppable(s, act) && (timely ==> Timely(s.a, s.toA, act))
    ensures CanReach(g, timely, s, StepA(g, s, act))
  {
    hide StepA, Possible, Timely;
    var mv := Move(true, act);
    assert Enabled(s, mv) && Step(g, s, mv) == StepA(g, s, act);
    assert After(g, StepA(g, s, act), [], timely) == StepA(g, s, act);
    assert [mv][1..] == [];
    assert Legal(g, s, [mv], timely) && After(g, s, [mv], timely) == StepA(g, s, act);
  }

  function Flip<S>(mvs: seq<Move<S>>): seq<Move<S>> {
    seq(|mvs|, i requires 0 <= i < |mvs| => mvs[i].(byA := !mvs[i].byA))
  }

  lemma {:induction false} FlippedRun<S(!new)>(g: Game<S>, timely: bool, s: Sys<S>, mvs: seq<Move<S>>)
    requires Legal(g, s, mvs, timely)
    ensures Legal(g, Mirror(s), Flip(mvs), timely)
    ensures After(g, Mirror(s), Flip(mvs), timely) == Mirror(After(g, s, mvs, timely))
    decreases |mvs|
  {
    hide StepA, Possible, Steppable, Timely;
    if mvs != [] {
      assert Flip(mvs)[1..] == Flip(mvs[1..]);
      FlippedRun(g, timely, Step(g, s, mvs[0]), mvs[1..]);
    }
  }

  /** What one console can do, the other can. */
  lemma Mirrored<S(!new)>(g: Game<S>, timely: bool, s: Sys<S>, s': Sys<S>)
    requires CanReach(g, timely, s, s')
    ensures CanReach(g, timely, Mirror(s), Mirror(s'))
  {
    hide Legal, After;
    var mvs :| Legal(g, s, mvs, timely) && After(g, s, mvs, timely) == s';
    FlippedRun(g, timely, s, mvs);
  }

  // -------------------------------------------------------------- frames

  /** At a tick boundary, in the match. */
  predicate At<S(!new)>(g: Game<S>, n: Node<S>) {
    Own(g, n) && n.c.ent.phase == 0 && !n.off && !n.c.ent.left && n.c.err < 0xE0
  }

  /** Everything the transport owns, untouched by frames. */
  ghost predicate SameTransport<S(!new)>(n: Node<S>, n': Node<S>) {
    && n'.c.nst == n.c.nst && n'.c.rdn == n.c.rdn && n'.c.ring == n.c.ring && n'.window == n.window
    && n'.high == n.high && n'.sent == n.sent && n'.c.ent.guest == n.c.ent.guest
    && n.caps <= n'.caps && n.ran <= n'.ran
  }

  function Due<S(!new)>(n: Node<S>): int {
    Tick(n) + (if n.c.ent.ran then 1 else 0)
  }

  lemma BoundaryFrame<S(!new)>(g: Game<S>, n: Node<S>, hw: Hardware)
    requires At(g, n) && -100 < n.high - Tick(n) < 100
    ensures var n' := Video(g, n, hw);
      && Own(g, n') && SameTransport(n, n') && Tick(n') == Due(n) && !n'.off && !n'.c.ent.left
      && n'.c.err < 0xF0 && n'.c.err <= n.c.err + 16
      && n'.caps == (if n.c.ent.ran then n.caps + [Captured(n.c, hw)] else n.caps)
      && (if n.high >= Due(n)
          then n'.c.ent.phase == 1 && n'.c.ent.ran && |n'.ran| == |n.ran| + 1 && n'.c.err < 16
               && Due(n) >= 0
               && n'.ran[|n.ran|] == (if n.c.ent.guest then (n.c.ring[Due(n) % 8], n'.caps[Due(n)])
                                      else (n'.caps[Due(n)], n.c.ring[Due(n) % 8]))
          else n'.c.ent.phase == 0 && !n'.c.ent.ran && n'.ran == n.ran)
  {
    hide Checksum, Mix, Capture, Press, NotBefore;
    VideoOwn(g, n, hw);
    AdvanceMeans(g, n, hw);
    var t := Due(n);
    SignedCompare(n.high, t);
    MaskOfWrapped(t);
    VideoIsNoTransport(g, n, hw);
  }

  lemma MidFrame<S(!new)>(g: Game<S>, n: Node<S>, hw: Hardware)
    requires Own(g, n) && n.c.ent.phase != 0
    ensures var n' := Video(g, n, hw);
      && Own(g, n') && SameTransport(n, n') && Tick(n') == Tick(n) && n'.c.ent.ran && n'.c.ent.left == n.c.ent.left
      && n'.caps == n.caps && n'.ran == n.ran && n'.c.err == n.c.err && n'.off == (n.off || n.c.ent.left)
      && n'.c.ent.phase == (n.c.ent.phase + 1) % 4
  {
    hide Checksum, Mix;
    VideoOwn(g, n, hw);
  }

  lemma OneFrame<S(!new)>(g: Game<S>, timely: bool, s: Sys<S>, hw: Hardware) returns (s': Sys<S>)
    requires Own(g, s.a) && !s.a.off
    ensures s' == s.(a := Video(g, s.a, hw)) && CanReach(g, timely, s, s')
  {
    OneStep(g, timely, s, Act.Frame(hw));
    s' := StepA(g, s, Act.Frame(hw));
  }

  /** A whole tick: four frames at an open gate. */
  lemma FourFrames<S(!new)>(g: Game<S>, timely: bool, s: Sys<S>, hw: Hardware) returns (s': Sys<S>)
    requires At(g, s.a) && Due(s.a) <= s.a.high < Due(s.a) + 50 && |s.a.c.ring| == 8
    ensures CanReach(g, timely, s, s') && s' == s.(a := s'.a)
    ensures At(g, s'.a) && SameTransport(s.a, s'.a) && s'.a.c.ent.ran && Tick(s'.a) == Due(s.a)
    ensures |s'.a.ran| == |s.a.ran| + 1 && 0 <= Due(s.a) < |s'.a.caps| && s'.a.c.err < 16
    ensures s'.a.ran[|s.a.ran|] == (if s.a.c.ent.guest then (s.a.c.ring[Due(s.a) % 8], s'.a.caps[Due(s.a)])
                                    else (s'.a.caps[Due(s.a)], s.a.c.ring[Due(s.a) % 8]))
  {
    hide Video, Own, CanReach;
    var s1 := OneFrame(g, timely, s, hw);
    BoundaryFrame(g, s.a, hw);
    var s2 := OneFrame(g, timely, s1, hw);
    MidFrame(g, s1.a, hw);
    var s3 := OneFrame(g, timely, s2, hw);
    MidFrame(g, s2.a, hw);
    s' := OneFrame(g, timely, s3, hw);
    MidFrame(g, s3.a, hw);
    Then(g, timely, s, s1, s2);
    Then(g, timely, s, s2, s3);
    Then(g, timely, s, s3, s');
  }

  // -------------------------------------------------------------- transactions

  const BLANK := Wire.Frame(0, 0, 0, 0, 0, 0, 0, 0)

  /** An answer to the transaction `n` is waiting for. */
  function Answer<S(!new)>(n: Node<S>, bytes: u8, shown: seq<Packet>): (m: Mail)
    requires |shown| <= 64
    ensures Readable(m)
  {
    Mail(n.c.seqno, 0, bytes, 0, 1, bytes, seq(64, i requires 0 <= i < 64 => if i < |shown| then shown[i].f else BLANK))
  }

  /** What a micro-step that consumes nothing may change, besides the channel. */
  ghost predicate SameMatch<S(!new)>(g: Game<S>, n: Node<S>, n': Node<S>) {
    && (At(g, n) ==> At(g, n')) && Own(g, n') && Untouched(n, n') && n'.off == n.off && n'.sim == n.sim
    && n'.c.err == n.c.err
  }

  lemma Write<S(!new)>(g: Game<S>, timely: bool, s: Sys<S>) returns (s': Sys<S>)
    requires At(g, s.a) && Tick(s.a) >= 0 && s.a.c.nst.Wiss?
    ensures CanReach(g, timely, s, s') && s' == s.(a := s'.a, toB := s.toB + [Packet(Outgoing(s.a.c), Tick(s.a) + CBD)])
    ensures SameMatch(g, s.a, s'.a) && s'.a.c.nst.Wack?
    ensures s'.a.sent == s.a.sent + [Packet(Outgoing(s.a.c), Tick(s.a) + CBD)]
  {
    hide Checksum, Check, Sound, CanReach, Outgoing;
    var m := Answer(s.a, 0, []);
    OneStep(g, timely, s, Micro(m, true));
    s' := StepA(g, s, Micro(m, true));
    NetUntouched(s.a, s.toA, m, true);
    UntouchedKeeps(g, s.a, s'.a, s.b);
    assert s.toA[0..] == s.toA;
  }

  /** A step that answers or launches and moves on to `next`. */
  lemma Move1<S(!new)>(g: Game<S>, timely: bool, s: Sys<S>, m: Mail) returns (s': Sys<S>)
    requires At(g, s.a) && Tick(s.a) >= 0 && Possible(s.a, s.toA, Micro(m, false)) && Drained(s.a, m) <= |s.toA|
    requires !Consumes(s.a) && m.err == 0 && m.devst == 1 && !s.a.c.nst.Fail?
    requires timely ==> Timely(s.a, s.toA, Micro(m, false))
    ensures CanReach(g, timely, s, s') && s' == StepA(g, s, Micro(m, false))
    ensures SameMatch(g, s.a, s'.a) && s'.toB == s.toB && s'.b == s.b && s'.a.sent == s.a.sent
    ensures s'.a.c.nst == NStep(s.a.c, m).nst && s'.a.c.rdn == NStep(s.a.c, m).rdn
    ensures !ReadCompletes(s.a, m) ==> s'.toA == s.toA && s'.a.window == s.a.window
  {
    hide Checksum, Check, Sound, CanReach, Outgoing;
    OneStep(g, timely, s, Micro(m, false));
    s' := StepA(g, s, Micro(m, false));
    NetUntouched(s.a, s.toA, m, false);
    UntouchedKeeps(g, s.a, s'.a, s.b);
    assert s.toB + [] == s.toB && s.a.sent + [] == s.a.sent;
    assert !ReadCompletes(s.a, m) ==> s.toA[0..] == s.toA;
  }

  /** Records no further than one window past the watermark. */
  predicate Near<S>(n: Node<S>, q: seq<Packet>) {
    forall i :: 0 <= i < |q| && IsInput(q[i]) ==> q[i].at <= Base(n) + CBWIN
  }

  /** From a WRITE just launched: acknowledge it, ask STATUS, READ all that waits. */
  lemma Fetch<S(!new)>(g: Game<S>, timely: bool, s: Sys<S>) returns (s': Sys<S>)
    requires At(g, s.a) && Tick(s.a) >= 0 && s.a.c.nst.Wack? && 1 <= |s.toA| <= 31
    requires timely ==> Near(s.a, s.toA)
    ensures CanReach(g, timely, s, s') && s' == s.(a := s'.a, toA := [])
    ensures SameMatch(g, s.a, s'.a) && s'.a.c.nst.Cons? && s'.a.c.rdn == |s.toA| && s'.a.window == s.toA
    ensures s'.a.sent == s.a.sent
  {
    hide Checksum, Check, Sound, CanReach, Outgoing, Own, StepA;
    var k := 8 * |s.toA|;
    var s1 := Move1(g, timely, s, Answer(s.a, k, []));
    var s2 := Move1(g, timely, s1, Answer(s1.a, k, []));
    var s3 := Move1(g, timely, s2, Answer(s2.a, k, []));
    var s4 := Move1(g, timely, s3, Answer(s3.a, k, []));
    s' := Move1(g, timely, s4, Answer(s4.a, k, []));
    ReadTakesAll(g, s4, Answer(s4.a, k, []));
    Then(g, timely, s, s1, s2);
    Then(g, timely, s, s2, s3);
    Then(g, timely, s, s3, s4);
    Then(g, timely, s, s4, s');
  }

  lemma ReadTakesAll<S(!new)>(g: Game<S>, s: Sys<S>, m: Mail)
    requires Possible(s.a, s.toA, Micro(m, false)) && Steppable(s, Micro(m, false))
    requires ReadCompletes(s.a, m) && s.a.c.rdn == 8 * |s.toA|
    ensures var s' := StepA(g, s, Micro(m, false));
      s'.toA == [] && s'.a.window == s.toA && s'.toB == s.toB && s'.b == s.b
  {
    assert s.toA[..|s.toA|] == s.toA && s.toA[|s.toA|..] == [];
    assert s.toB + [] == s.toB;
  }

  /** One record off the top of the window. */
  lemma Take<S(!new)>(g: Game<S>, timely: bool, s: Sys<S>) returns (s': Sys<S>)
    requires At(g, s.a) && Tick(s.a) >= 0 && s.a.c.nst.Cons? && 0 < s.a.c.rdn <= |s.a.window| <= 31
    requires var p := s.a.window[s.a.c.rdn - 1];
      IsInput(p) && Sound(p.f) && p.f.stamp == Wrap(p.at) && 0 <= p.at - s.a.high < 100
    ensures var p := s.a.window[s.a.c.rdn - 1];
      CanReach(g, timely, s, s') && s' == s.(a := s'.a) && s'.a.high == p.at
      && s'.a.c.ring == StoreWindow(s.a.c.ring, p.f)
    ensures At(g, s'.a) && s'.a.c.nst.Cons? && s'.a.c.rdn == s.a.c.rdn - 1
    ensures s'.a.caps == s.a.caps && s'.a.ran == s.a.ran && s'.a.sent == s.a.sent && s'.a.c.err == s.a.c.err
    ensures s'.a.window == s.a.window
    ensures s'.a.c.ent.guest == s.a.c.ent.guest && s'.a.c.ent.ran == s.a.c.ent.ran && Tick(s'.a) == Tick(s.a)
  {
    hide Checksum, Check, Sound, CanReach, Outgoing, StoreWindow, NotBefore;
    var m := Answer(s.a, 0, s.a.window);
    var p := s.a.window[s.a.c.rdn - 1];
    assert m.reply[Cursor(s.a.c)] == p.f;
    OneStep(g, timely, s, Micro(m, false));
    s' := StepA(g, s, Micro(m, false));
    SignedCompare(p.at, s.a.high);
    assert s.toA[0..] == s.toA && s.toB + [] == s.toB;
  }

  // -------------------------------------------------------------- the run

  const TOY: Game<int> := Game(0, (s, sh) => s, s => s, s => SimCells(0, 0, [], [], 0))

  /** Every stick pushed and every switch pressed: nothing like an idle console. */
  const HANDS := Hardware(0, 0, 0, 0)

  const COLD := Cells(Flags(0, false, false, false, false, false, false), 0, 0, [], [], 0, 0, Idle, 0, 0,
                      false, Shadows(0, 0, 0, 0))

  /** The first frame stalls on tick 0, and the first WRITE sends tick 2's record. */
  lemma FirstRecord<S(!new)>(g: Game<S>, timely: bool, s: Sys<S>) returns (s': Sys<S>)
    requires At(g, s.a) && Tick(s.a) == -1 && s.a.high == -2 && s.a.c.nst.Wiss? && !s.a.c.ent.rsy && s.a.c.err == 0
    ensures CanReach(g, timely, s, s') && s' == s.(a := s'.a, toB := s'.toB)
    ensures At(g, s'.a) && Tick(s'.a) == 0 && !s'.a.c.ent.ran && s'.a.c.nst.Wack?
    ensures s'.a.high == -2 && s'.a.ran == [] && s'.a.c.ring == s.a.c.ring && s'.a.c.ent.guest == s.a.c.ent.guest
    ensures s'.a.caps == s.a.caps + [Capture(HANDS)]
    ensures |s'.toB| == |s.toB| + 1 && s'.toB[..|s.toB|] == s.toB && Usable(s'.toB[|s.toB|], 2)
  {
    hide Video, CanReach, Outgoing, Capture;
    var s1 := OneFrame(g, timely, s, HANDS);
    BoundaryFrame(g, s.a, HANDS);
    s' := Write(g, timely, s1);
    OutgoingIsUsable(g, s1.a);
    Then(g, timely, s, s1, s');
  }

  lemma FreshIsAt<S(!new)>(g: Game<S>, guest: bool, j: Cells)
    ensures var n := Fresh(g, guest, j);
      At(g, n) && Tick(n) == -1 && n.high == -2 && n.c.nst.Wiss? && !n.c.ent.rsy && n.c.ent.guest == guest
      && n.c.ring == seq(8, _ => IW_IDLE) && n.caps == [IW_IDLE, IW_IDLE] && n.c.err == 0
  {
    hide Checksum;
  }

  /** Before anything arrives: both consoles stalled on tick 0, each with its first
      record on its way to the other. */
  lemma BothStart(timely: bool) returns (s: Sys<int>)
    ensures CanReach(TOY, timely, Begin(TOY, COLD, COLD), s)
    ensures At(TOY, s.a) && At(TOY, s.b) && Tick(s.a) == Tick(s.b) == 0 && s.a.ran == s.b.ran == []
    ensures s.a.c.nst.Wack? && s.b.c.nst.Wack? && s.a.high == s.b.high == -2
    ensures !s.a.c.ent.ran && !s.b.c.ent.ran && !s.a.c.ent.guest && s.b.c.ent.guest
    ensures s.a.caps == [IW_IDLE, IW_IDLE, 0] && |s.a.c.ring| == 8 && s.b.c.ring == seq(8, _ => IW_IDLE)
    ensures |s.toA| == |s.toB| == 1 && Usable(s.toA[0], 2) && Usable(s.toB[0], 2)
  {
    hide CanReach, At, Usable, Fresh;
    var s0 := Begin(TOY, COLD, COLD);
    FreshIsAt(TOY, false, COLD);
    FreshIsAt(TOY, true, COLD);
    var s1 := FirstRecord(TOY, timely, s0);
    var s2 := FirstRecord(TOY, timely, Mirror(s1));
    Mirrored(TOY, timely, Mirror(s1), s2);
    Then(TOY, timely, s0, s1, Mirror(s2));
    s := Mirror(s2);
  }

  predicate Usable(p: Packet, at: int) {
    IsInput(p) && Sound(p.f) && p.f.stamp == Wrap(p.at) && p.at == at
  }

  lemma OutgoingIsUsable<S(!new)>(g: Game<S>, n: Node<S>)
    requires Own(g, n) && Tick(n) >= 0
    ensures Usable(Packet(Outgoing(n.c), Tick(n) + CBD), Tick(n) + CBD)
  {
    hide Checksum, Check, Sound;
    var f := Outgoing(n.c);
    RecordsAreSound(f.stamp, f.b1, f.b2, f.b3, f.crc);
    SlotOfWrapped(Tick(n), CBD);
  }

  /** Three ticks on end, at a gate open for all of them. */
  lemma ThreeTicks(timely: bool, s: Sys<int>) returns (s': Sys<int>)
    requires At(TOY, s.a) && Tick(s.a) == 0 && !s.a.c.ent.ran && 2 <= s.a.high < 40 && s.a.ran == []
      && |s.a.c.ring| == 8
    ensures CanReach(TOY, timely, s, s') && s' == s.(a := s'.a)
    ensures At(TOY, s'.a) && SameTransport(s.a, s'.a) && Tick(s'.a) == 2 && s'.a.c.ent.ran
    ensures |s'.a.ran| == 3 && |s'.a.caps| == 5 && s'.a.c.err < 16
    ensures s'.a.ran[2] == if s.a.c.ent.guest then (s.a.c.ring[2], s'.a.caps[2]) else (s'.a.caps[2], s.a.c.ring[2])
  {
    hide CanReach, At;
    var s1 := FourFrames(TOY, timely, s, HANDS);
    var s2 := FourFrames(TOY, timely, s1, HANDS);
    s' := FourFrames(TOY, timely, s2, HANDS);
    Then(TOY, timely, s, s1, s2);
    Then(TOY, timely, s, s2, s');
  }

  /** The host hears tick 2 and runs ticks 0, 1 and 2 before its next micro-step. */
  lemma HostRuns(timely: bool, s: Sys<int>) returns (s': Sys<int>)
    requires At(TOY, s.a) && Tick(s.a) == 0 && s.a.ran == [] && s.a.c.nst.Wack? && s.a.high == -2
    requires !s.a.c.ent.ran && !s.a.c.ent.guest && |s.toA| == 1 && Usable(s.toA[0], 2) && |s.a.c.ring| == 8
    ensures CanReach(TOY, timely, s, s') && s'.b == s.b && s'.toB == s.toB
    ensures At(TOY, s'.a) && Tick(s'.a) == 2 && s'.a.c.ent.ran && s'.a.c.nst.Cons? && s'.a.c.rdn == 0 && s'.a.high == 2
    ensures |s'.a.ran| == 3 && s.a.caps <= s'.a.caps && |s'.a.caps| == 5 && s'.a.ran[2].0 == s'.a.caps[2]
    ensures s'.a.c.err < 16 && |s'.a.window| == 1
  {
    hide CanReach, At, Video, Own, StoreWindow;
    var s1 := Fetch(TOY, timely, s);
    var s2 := Take(TOY, timely, s1);
    s' := ThreeTicks(timely, s2);
    Then(TOY, timely, s, s1, s2);
    Then(TOY, timely, s, s2, s');
  }

  /** Stalled on tick 3, it sends the window of ticks 5, 4 and 3: the one of tick 4 was
      never sent, and the guest has not yet read the first. */
  lemma HostWrites(timely: bool, s: Sys<int>) returns (s': Sys<int>)
    requires At(TOY, s.a) && Tick(s.a) == 2 && s.a.c.ent.ran && s.a.c.nst.Cons? && s.a.c.rdn == 0 && s.a.high == 2
    requires s.a.c.err < 16 && |s.a.window| == 1
    ensures CanReach(TOY, timely, s, s') && s'.b == s.b && Tick(s'.a) == 3
    ensures |s'.toB| == |s.toB| + 1 && s'.toB[..|s.toB|] == s.toB && Usable(s'.toB[|s.toB|], 5)
    ensures s.a.ran <= s'.a.ran && s.a.caps <= s'.a.caps
  {
    hide CanReach, Video, Own, Outgoing;
    var s1 := OneFrame(TOY, timely, s, HANDS) by { AtOwn(TOY, s.a); }
    BoundaryFrame(TOY, s.a, HANDS);
    BoundaryAt(TOY, s.a, s1.a);
    var s2 := Move1(TOY, timely, s1, Answer(s1.a, 0, s1.a.window));
    s' := Write(TOY, timely, s2);
    OutgoingIsUsable(TOY, s2.a) by { AtOwn(TOY, s2.a); }
    Then(TOY, timely, s, s1, s2);
    Then(TOY, timely, s, s2, s');
  }

  lemma BoundaryAt<S(!new)>(g: Game<S>, n: Node<S>, n': Node<S>)
    requires Own(g, n') && n'.c.ent.phase == 0 && !n'.off && !n'.c.ent.left
    ensures n'.c.err < 0xE0 ==> At(g, n')
  {
  }

  lemma AtOwn<S(!new)>(g: Game<S>, n: Node<S>)
    requires At(g, n)
    ensures Own(g, n) && !n.off && Shaped(n.c) && n.c.ent.net
  {
  }
}
