/** Two runs from power-up. In one, two consoles run the same tick with different inputs: a
    batch that reaches further than one window, and frames between two of its records; it
    shows the environment predicate of the agreement theorems is needed. The other keeps to
    that predicate and meets every bound the theorems give. */
module Counterexample {
  import opened Bytes
  import opened Entry
  import opened Wire
  import opened Console
  import opened Lockstep
  import opened FrameProofs
  import opened NetProofs
  import opened Agreement
  import opened Paths

  /** The guest reads both records at once, takes the newer one, and runs ticks 0, 1 and
      2 before the next micro-step: tick 2's slot is still idle. */
  lemma GuestRunsEarly(s: Sys<int>) returns (s': Sys<int>)
    requires At(TOY, s.a) && Tick(s.a) == 0 && s.a.ran == [] && s.a.c.nst.Wack? && s.a.high == -2
    requires !s.a.c.ent.ran && s.a.c.ent.guest && s.a.c.ring == seq(8, _ => IW_IDLE)
    requires |s.toA| == 2 && Usable(s.toA[1], 5)
    ensures CanReach(TOY, false, s, s') && s'.b == s.b
    ensures |s'.a.ran| == 3 && s'.a.ran[2].0 == IW_IDLE
  {
    hide CanReach, At, Video, Own, StoreWindow;
    var s1 := Fetch(TOY, false, s);
    var s2 := Take(TOY, false, s1);
    StoredSlots(s.a.c.ring, 5, s.toA[1].f, 2);
    s' := ThreeTicks(false, s2);
    Then(TOY, false, s, s1, s2);
    Then(TOY, false, s, s2, s');
  }

  /** WITHOUT TIMELY READS THE CONSOLES CAN DISAGREE. There is a run from power-up, every
      step of it possible, after which both consoles have run tick 2 with different
      inputs; no such run satisfies the environment predicate throughout. */
  lemma UntimelyReadsBreakAgreement()
    ensures exists s: Sys<int> {:trigger CanReach(TOY, false, Begin(TOY, COLD, COLD), s)} ::
      CanReach(TOY, false, Begin(TOY, COLD, COLD), s)
      && |s.a.ran| > 2 && |s.b.ran| > 2 && s.a.ran[2] != s.b.ran[2]
  {
    hide CanReach, At, Usable;
    var s0 := Begin(TOY, COLD, COLD);
    var s1 := BothStart(false);
    var s2 := HostRuns(false, s1);
    var s3 := HostWrites(false, s2);
    var s4 := GuestRunsEarly(Mirror(s3));
    Mirrored(TOY, false, Mirror(s3), s4);
    Then(TOY, false, s0, s1, s2);
    Then(TOY, false, s0, s2, s3);
    Then(TOY, false, s0, s3, Mirror(s4));
    assert Mirror(s4).a.ran[2].0 == 0 != Mirror(s4).b.ran[2].0;
  }

  /** THE BOUNDS ARE REACHED. A timely run brings the pair to the largest skew and the
      guest to the furthest watermark at once: the host waits at tick 3 while the guest
      waits at tick 0 with the host's bytes up to tick 5, six live ticks. */
  lemma BoundsAreReached()
    ensures exists s: Sys<int> {:trigger Reachable(TOY, s)} ::
      Reachable(TOY, s) && Tick(s.a) == Tick(s.b) + 3 && s.b.high == Tick(s.b) + 5
  {
    hide CanReach, At, Usable, Own, StoreWindow, Reachable;
    var s := Furthest();
    PathIsReachable(s);
  }

  lemma Furthest() returns (s: Sys<int>)
    ensures CanReach(TOY, true, Begin(TOY, COLD, COLD), s)
    ensures Tick(s.a) == 3 && Tick(s.b) == 0 && s.b.high == 5
    ensures At(TOY, s.b) && !s.b.c.ent.ran && |s.b.c.ring| == 8 && s.b.c.nst.Cons? && s.b.c.rdn == 0
    ensures |s.b.window| == 1 && s.b.sent != [] && s.b.sent[|s.b.sent| - 1].at == 2
  {
    hide CanReach, At, Usable, Own, StoreWindow;
    var s0 := Begin(TOY, COLD, COLD);
    var s1 := BothStart(true);
    var s2 := GuestHears(s1);
    var s3 := HostRuns(true, s2);
    var s4 := HostWrites(true, s3);
    s := GuestHearsAgain(s4);
    Then(TOY, true, s0, s1, s2);
    Then(TOY, true, s0, s2, s3);
    Then(TOY, true, s0, s3, s4);
    Then(TOY, true, s0, s4, s);
  }

  // -------------------------------------------------------------- the largest step of a stamp

  /** Three ticks on, at a gate open for all of them. */
  lemma RunsOn(s: Sys<int>) returns (s': Sys<int>)
    requires At(TOY, s.a) && Paths.Due(s.a) + 2 <= s.a.high < Paths.Due(s.a) + 40 && |s.a.c.ring| == 8
    ensures CanReach(TOY, true, s, s') && s' == s.(a := s'.a)
    ensures At(TOY, s'.a) && SameTransport(s.a, s'.a) && s'.a.c.ent.ran && Tick(s'.a) == Paths.Due(s.a) + 2
    ensures s'.a.c.err < 16
  {
    hide CanReach, At;
    var s1 := FourFrames(TOY, true, s, HANDS);
    var s2 := FourFrames(TOY, true, s1, HANDS);
    s' := FourFrames(TOY, true, s2, HANDS);
    Then(TOY, true, s, s1, s2);
    Then(TOY, true, s, s2, s');
  }

  /** The guest runs all six ticks it has bytes for before it writes again. */
  lemma GuestCatchesUp(s: Sys<int>) returns (s': Sys<int>)
    requires At(TOY, s.a) && Tick(s.a) == 0 && !s.a.c.ent.ran && s.a.high == 5 && |s.a.c.ring| == 8
    requires s.a.c.nst.Cons? && s.a.c.rdn == 0 && |s.a.window| == 1
    ensures CanReach(TOY, true, s, s') && |s'.a.sent| == |s.a.sent| + 1 && s'.a.sent[..|s.a.sent|] == s.a.sent
    ensures s'.a.sent[|s.a.sent|].at == 8
  {
    hide CanReach, At, Own, Outgoing, Video;
    var s1 := RunsOn(s);
    var s2 := RunsOn(s1);
    AtOwn(TOY, s2.a);
    var s3 := OneFrame(TOY, true, s2, HANDS);
    BoundaryFrame(TOY, s2.a, HANDS);
    BoundaryAt(TOY, s2.a, s3.a);
    var s4 := Move1(TOY, true, s3, Answer(s3.a, 0, s3.a.window));
    s' := Write(TOY, true, s4);
    Then(TOY, true, s, s1, s2);
    Then(TOY, true, s, s2, s3);
    Then(TOY, true, s, s3, s4);
    Then(TOY, true, s, s4, s');
  }

  /** STAMPS DO MOVE BY SIX. In the same run the guest's next record is stamped six past the
      one before it. */
  lemma StampsMoveBySix()
    ensures exists s: Sys<int> {:trigger Reachable(TOY, s)} ::
      Reachable(TOY, s) && |s.b.sent| >= 2 && s.b.sent[|s.b.sent| - 1].at == s.b.sent[|s.b.sent| - 2].at + 6
  {
    hide CanReach, At, Own, Reachable;
    var s1 := Furthest();
    var s2 := GuestCatchesUp(Mirror(s1));
    Mirrored(TOY, true, Mirror(s1), s2);
    Then(TOY, true, Begin(TOY, COLD, COLD), s1, Mirror(s2));
    PathIsReachable(Mirror(s2));
    assert s2.a.sent[..|s1.b.sent|] == s1.b.sent;
  }

  lemma PathIsReachable(s: Sys<int>)
    requires CanReach(TOY, true, Begin(TOY, COLD, COLD), s)
    ensures Reachable(TOY, s)
  {
    hide Legal, After;
  }

  /** The guest consumes the host's first record and runs nothing on it yet. */
  lemma GuestHears(s: Sys<int>) returns (s': Sys<int>)
    requires At(TOY, s.b) && Tick(s.b) == 0 && s.b.c.nst.Wack? && s.b.high == -2
    requires |s.toB| == 1 && Usable(s.toB[0], 2) && !s.b.c.ent.ran && |s.b.c.ring| == 8
    ensures CanReach(TOY, true, s, s') && s' == s.(b := s'.b, toB := [])
    ensures At(TOY, s'.b) && Tick(s'.b) == 0 && s'.b.c.nst.Cons? && s'.b.c.rdn == 0 && s'.b.high == 2
    ensures |s'.b.window| == 1 && !s'.b.c.ent.ran && |s'.b.c.ring| == 8
  {
    hide CanReach, At, Own, StoreWindow;
    var s1 := Fetch(TOY, true, Mirror(s));
    var s2 := Take(TOY, true, s1);
    Then(TOY, true, Mirror(s), s1, s2);
    Mirrored(TOY, true, Mirror(s), s2);
    s' := Mirror(s2);
  }

  /** With nothing left to consume it sends its own record again. */
  lemma Resend(s: Sys<int>) returns (s': Sys<int>)
    requires At(TOY, s.a) && Tick(s.a) == 0 && s.a.c.nst.Cons? && s.a.c.rdn == 0 && |s.a.window| == 1
    ensures CanReach(TOY, true, s, s') && s'.b == s.b && s'.toA == s.toA
    ensures At(TOY, s'.a) && Tick(s'.a) == 0 && s'.a.c.nst.Wack? && s'.a.high == s.a.high
    ensures s'.a.c.ent == s.a.c.ent && s'.a.c.ring == s.a.c.ring
    ensures s'.a.sent != [] && s'.a.sent[|s'.a.sent| - 1].at == 2
  {
    hide CanReach, At, Own, StoreWindow, Outgoing;
    AtOwn(TOY, s.a);
    var s1 := Move1(TOY, true, s, Answer(s.a, 0, s.a.window));
    s' := Write(TOY, true, s1);
    Then(TOY, true, s, s1, s');
  }

  /** Then it consumes the window that ends at tick 5. */
  lemma GuestHearsAgain(s: Sys<int>) returns (s': Sys<int>)
    requires At(TOY, s.b) && Tick(s.b) == 0 && s.b.c.nst.Cons? && s.b.c.rdn == 0 && s.b.high == 2
    requires |s.toB| == 1 && Usable(s.toB[0], 5) && |s.b.window| == 1 && !s.b.c.ent.ran && |s.b.c.ring| == 8
    ensures CanReach(TOY, true, s, s') && s'.a == s.a && Tick(s'.b) == 0 && s'.b.high == 5
    ensures At(TOY, s'.b) && !s'.b.c.ent.ran && |s'.b.c.ring| == 8 && s'.b.c.nst.Cons? && s'.b.c.rdn == 0
    ensures |s'.b.window| == 1 && s'.b.sent != [] && s'.b.sent[|s'.b.sent| - 1].at == 2
  {
    hide CanReach, At, Own, StoreWindow, Outgoing;
    var s1 := Resend(Mirror(s));
    var s2 := Fetch(TOY, true, s1);
    var s3 := Take(TOY, true, s2);
    Then(TOY, true, Mirror(s), s1, s2);
    Then(TOY, true, Mirror(s), s2, s3);
    Mirrored(TOY, true, Mirror(s), s3);
    s' := Mirror(s3);
  }
}
