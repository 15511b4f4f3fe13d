/** What the two simulations do: stall independence, alarms and repairs. */
module Simulation {
  import opened Bytes
  import opened Entry
  import opened Wire
  import opened Console
  import opened Lockstep
  import opened FrameProofs
  import opened NetProofs
  import opened Agreement

  /** Two states no later frame and no look of the netcode can tell apart. */
  ghost predicate Same<S(!new)>(g: Game<S>, s: S, t: S) {
    g.view(s) == g.view(t) && forall sh :: g.run(s, sh) == g.run(t, sh)
  }

  /** What the patch assumes of Combat: the B&W switch reaches only colour, and a stalled
      frame's redraw leaves nothing the logic can see. */
  ghost predicate Lawful<S(!new)>(g: Game<S>) {
    && (forall s, sh :: g.run(s, sh) == g.run(s, Shared(sh)))
    && (forall s :: Same(g, g.redraw(s), s))
  }

  /** `k` frames of the game with the same shadows. */
  function Frames<S(!new)>(g: Game<S>, s: S, sh: Shadows, k: nat): S {
    if k == 0 then s else g.run(Frames(g, s, sh, k - 1), sh)
  }

  /** The shadows of a tick, as a function of the state entering it and its two bytes. */
  function Mixed<S(!new)>(g: Game<S>, s: S, w: (u8, u8)): Shadows {
    Mix(w.0, w.1, On(g, s), 8)
  }

  /** A whole tick: four frames. */
  function TickOf<S(!new)>(g: Game<S>, s: S, w: (u8, u8)): S {
    Frames(g, s, Mixed(g, s, w), 4)
  }

  /** The simulation as a fold over the agreed inputs, with no stall anywhere in it. */
  function Canon<S(!new)>(g: Game<S>, ws: seq<(u8, u8)>): S
    decreases |ws|
  {
    if ws == [] then g.init else TickOf(g, Canon(g, ws[..|ws| - 1]), ws[|ws| - 1])
  }

  lemma {:induction false} SameFrames<S(!new)>(g: Game<S>, s: S, t: S, sh: Shadows, k: nat)
    requires Same(g, s, t) && k > 0
    ensures Frames(g, s, sh, k) == Frames(g, t, sh, k)
  {
    if k == 1 {
      assert Frames(g, s, sh, 0) == s && Frames(g, t, sh, 0) == t;
    } else {
      SameFrames(g, s, t, sh, k - 1);
    }
  }

  lemma SameTick<S(!new)>(g: Game<S>, s: S, t: S, w: (u8, u8))
    requires Same(g, s, t)
    ensures TickOf(g, s, w) == TickOf(g, t, w)
  {
    hide Mix;
    SameFrames(g, s, t, Mixed(g, s, w), 4);
  }

  // -------------------------------------------------------------- one console's history

  /** How many frames of its current tick a console has run. */
  function Done(c: Cells): nat {
    if !c.ent.ran then 0 else if 0 < c.ent.phase then c.ent.phase else 4
  }

  /** The current tick, frame by frame, unless something outside disturbed it. */
  ghost predicate Midway<S(!new)>(g: Game<S>, n: Node<S>)
    requires |n.enter| == Tick(n) + 1
    requires |n.ran| == Tick(n) + (if n.c.ent.ran then 1 else 0)
  {
    var t := Tick(n);
    t >= 0 && t !in n.dirty ==>
      if Done(n.c) == 0 then Same(g, n.sim, n.enter[t])
      else
        && Same(g, n.sim, Frames(g, n.enter[t], Mixed(g, n.enter[t], n.ran[t]), Done(n.c)))
        && (n.c.ent.phase != 0 ==> Shared(n.c.shadows) == Mixed(g, n.enter[t], n.ran[t]))
  }

  ghost predicate Chained<S(!new)>(g: Game<S>, n: Node<S>)
    requires |n.enter| == Tick(n) + 1 && |n.ran| >= Tick(n)
  {
    && (forall u :: u in n.dirty ==> u <= Tick(n))
    && (-1 !in n.dirty ==> if Tick(n) == -1 then n.sim == g.init else n.enter[0] == g.init)
    && (forall u :: 0 <= u < Tick(n) && u !in n.dirty ==> Same(g, n.enter[u + 1], TickOf(g, n.enter[u], n.ran[u])))
  }

  ghost predicate Told<S(!new)>(g: Game<S>, n: Node<S>) {
    Own(g, n) && Midway(g, n) && Chained(g, n)
  }

  /** A frame extends the story: four run frames a tick, and stalled frames nowhere. */
  lemma VideoTold<S(!new)>(g: Game<S>, n: Node<S>, hw: Hardware)
    requires Lawful(g) && Told(g, n)
    ensures Told(g, Video(g, n, hw))
  {
    hide Mix, Checksum, Shared;
    VideoOwn(g, n, hw);
    if n.c.ent.phase != 0 {
      VideoMidTick(g, n, hw);
    } else {
      VideoBoundary(g, n, hw);
    }
  }

  lemma VideoMidTick<S(!new)>(g: Game<S>, n: Node<S>, hw: Hardware)
    requires Lawful(g) && Told(g, n) && n.c.ent.phase != 0
    ensures Own(g, Video(g, n, hw)) ==> Midway(g, Video(g, n, hw)) && Chained(g, Video(g, n, hw))
  {
    hide Mix, Checksum, Shared;
    var t := Tick(n);
    var n' := Video(g, n, hw);
    assert Tick(n') == t && n'.enter == n.enter && n'.ran == n.ran;
    if t !in n.dirty {
      var sh := Mixed(g, n.enter[t], n.ran[t]);
      assert n'.sim == g.run(n.sim, Shared(n.c.shadows)) == g.run(n.sim, sh);
      assert n'.sim == Frames(g, n.enter[t], sh, Done(n.c) + 1);
    }
  }

  lemma VideoBoundary<S(!new)>(g: Game<S>, n: Node<S>, hw: Hardware)
    requires Lawful(g) && Told(g, n) && n.c.ent.phase == 0
    ensures Own(g, Video(g, n, hw)) ==> Midway(g, Video(g, n, hw)) && Chained(g, Video(g, n, hw))
  {
    hide Mix, Checksum, Shared, GateOpen, Wires;
    var n' := Video(g, n, hw);
    var t' := Tick(n');
    var gate := Advance(n.c.(adv := true), hw, Crc(g, n.sim));
    if Own(g, n') {
      assert t' !in n'.dirty ==> Same(g, n.sim, n'.enter[t']);
      if GateOpen(gate) && t' !in n'.dirty {
        var w := Wires(gate);
        OnlyBlackAndWhiteIsLocal(w.0, w.1, On(g, n.sim), hw.swchb);
        assert n'.ran[t'] == w;
        assert Shared(n'.c.shadows) == Mixed(g, n'.enter[t'], w);
        assert n'.sim == g.run(n.sim, Shared(n'.c.shadows)) == g.run(n'.enter[t'], Mixed(g, n'.enter[t'], w));
        assert n'.sim == Frames(g, n'.enter[t'], Mixed(g, n'.enter[t'], w), 1) by {
          assert Frames(g, n'.enter[t'], Mixed(g, n'.enter[t'], w), 0) == n'.enter[t'];
        }
      }
    }
  }

  lemma NetTold<S(!new)>(g: Game<S>, n: Node<S>, n': Node<S>)
    requires Told(g, n) && Own(g, n')
    requires n'.caps == n.caps && n'.enter == n.enter && n'.ran == n.ran && n'.sim == n.sim && n'.dirty == n.dirty
    requires n'.c.shadows == n.c.shadows && n'.c.ent.phase == n.c.ent.phase && n'.c.ent.ran == n.c.ent.ran
    ensures Told(g, n')
  {
    hide Mix, Checksum, Shared;
  }

  lemma NStepKeepsShadows(c: Cells, m: Mail)
    requires Shaped(c) && Readable(m)
    ensures NStep(c, m).shadows == c.shadows && NStep(c, m).ent.phase == c.ent.phase && NStep(c, m).ent.ran == c.ent.ran
  {
    hide Consume;
    if c.nst.Cons? && c.rdn > 0 {
      ConsumeKeepsState(c.(rdn := c.rdn - 1), m.reply[Cursor(c)]);
    }
  }

  ghost predicate Story<S(!new)>(g: Game<S>, s: Sys<S>) {
    Inv(g, s) && Told(g, s.a) && Told(g, s.b)
  }

  lemma StepATold<S(!new)>(g: Game<S>, s: Sys<S>, act: Act<S>)
    requires Lawful(g) && Story(g, s)
    requires Possible(s.a, s.toA, act) && Steppable(s, act) && Timely(s.a, s.toA, act)
    ensures Story(g, StepA(g, s, act))
  {
    hide Half, Video, Own, NStep, Lawful, Midway, Chained;
    StepAKeeps(g, s, act);
    var s' := StepA(g, s, act);
    Parts(g, s'.a, s'.b, s'.toA);
    match act
    case Frame(hw) => VideoTold(g, s.a, hw);
    case Micro(m, taken) =>
      NStepKeepsShadows(s.a.c, m);
      NetTold(g, s.a, s'.a);
    case Glitch(sim) => GlitchTold(g, s.a, sim);
    case Leave => NetTold(g, s.a, s'.a);
  }

  lemma GlitchTold<S(!new)>(g: Game<S>, n: Node<S>, sim: S)
    requires Told(g, n)
    ensures var n' := n.(sim := sim, dirty := n.dirty + {Tick(n)}); Own(g, n') ==> Told(g, n')
  {
    hide Mix, Checksum, Shared;
  }

  lemma {:induction false} RunTold<S(!new)>(g: Game<S>, s: Sys<S>, mvs: seq<Move<S>>)
    requires Lawful(g) && Story(g, s) && Legal(g, s, mvs, true)
    ensures Story(g, After(g, s, mvs, true))
    decreases |mvs|
  {
    if mvs != [] {
      hide Half, Told, StepA;
      StepATold(g, Seen(s, mvs[0]), mvs[0].act);
      RunTold(g, Step(g, s, mvs[0]), mvs[1..]);
    }
  }

  lemma ReachesStory<S(!new)>(g: Game<S>, v: Sys<S>)
    requires Lawful(g) && Reaches(g, v)
    ensures Story(g, v)
  {
    hide Half, Mix, Checksum, Lawful, Step, Enabled;
    var s := if Reachable(g, v) then v else Mirror(v);
    var junkA, junkB, mvs :| Legal(g, Begin(g, junkA, junkB), mvs, true)
      && s == After(g, Begin(g, junkA, junkB), mvs, true);
    var s0 := Begin(g, junkA, junkB);
    FreshHalf(g, s0.a, s0.b, false, junkA, junkB);
    FreshHalf(g, s0.b, s0.a, true, junkB, junkA);
    Parts(g, s0.a, s0.b, s0.toA);
    RunTold(g, s0, mvs);
  }

  // -------------------------------------------------------------- the theorems

  lemma {:induction false} EnterIsCanon<S(!new)>(g: Game<S>, n: Node<S>, t: nat)
    requires Told(g, n) && n.dirty == {} && t < |n.enter|
    ensures t <= |n.ran| && Same(g, n.enter[t], Canon(g, n.ran[..t]))
  {
    hide Mix, Checksum, Midway;
    if t > 0 {
      EnterIsCanon(g, n, t - 1);
      assert n.ran[..t][..t - 1] == n.ran[..t - 1];
      SameTick(g, n.enter[t - 1], Canon(g, n.ran[..t - 1]), n.ran[t - 1]);
    }
  }

  /** STALL INDEPENDENCE. The state entering any tick is the fold of the inputs agreed so
      far, four game steps a tick, whatever either console stalled through; so the two
      consoles enter every tick in the same state. */
  lemma StallIndependence<S(!new)>(g: Game<S>, s: Sys<S>, t: nat)
    requires Lawful(g) && Reaches(g, s)
    requires s.a.dirty == {} && t < |s.a.enter|
    ensures t <= |s.a.ran| && Same(g, s.a.enter[t], Canon(g, s.a.ran[..t]))
    ensures s.b.dirty == {} && t < |s.b.enter| ==>
      t <= |s.b.ran| && s.a.ran[..t] == s.b.ran[..t] && Same(g, s.a.enter[t], s.b.enter[t])
  {
    ReachesStory(g, s);
    hide Inv, Told, Lawful, Reaches, Same, Canon;
    EnterIsCanon(g, s.a, t);
    if s.b.dirty == {} && t < |s.b.enter| {
      EnterIsCanon(g, s.b, t);
      SameInputs(g, s, t);
      SameJoin(g, s.a.enter[t], s.b.enter[t], Canon(g, s.a.ran[..t]));
    }
  }

  lemma SameInputs<S(!new)>(g: Game<S>, s: Sys<S>, t: nat)
    requires Reaches(g, s) && t <= |s.a.ran| && t <= |s.b.ran|
    ensures s.a.ran[..t] == s.b.ran[..t]
  {
    hide Reaches;
    forall u | 0 <= u < t ensures s.a.ran[u] == s.b.ran[u] {
      InputAgreement(g, s, u);
    }
  }

  lemma SameJoin<S(!new)>(g: Game<S>, s: S, t: S, u: S)
    requires Same(g, s, u) && Same(g, t, u)
    ensures Same(g, s, t) && Same(g, t, s)
  {
  }

  /** ALARMS ARE REAL. A repair is armed only on a true difference: at the tick it was
      armed the two simulations entered with different checksums. So with two
      undisturbed simulations no repair is ever armed. */
  lemma AlarmsAreReal<S(!new)>(g: Game<S>, s: Sys<S>, t: int)
    requires Reaches(g, s) && t in s.a.arms
    ensures 0 <= t < |s.a.enter| && t < |s.b.enter|
    ensures Crc(g, s.a.enter[t]) != Crc(g, s.b.enter[t])
    ensures Lawful(g) ==> s.a.dirty != {} || s.b.dirty != {}
  {
    ReachesInv(g, s);
    hide Half, Hears, Ledger, RanAgreed, SentOk, Sized, Own, Checksum, Inv, Lawful;
    Parts(g, s.a, s.b, s.toA);
    if Lawful(g) && s.a.dirty == {} && s.b.dirty == {} {
      StallIndependence(g, s, t);
    }
  }

  /** DETECTION. When a record of the tick this console is on comes out of the window,
      the alarm goes up exactly if the two states entering that tick have different
      checksums (or it was up already). */
  lemma DetectionIsExact<S(!new)>(g: Game<S>, s: Sys<S>, m: Mail, taken: bool)
    requires Reaches(g, s)
    requires Possible(s.a, s.toA, Micro(m, taken)) && Consumes(s.a) && s.a.c.rdn <= |s.a.window|
    requires var p := s.a.window[s.a.c.rdn - 1]; IsInput(p) && p.at - CBD == Tick(s.a)
    ensures Steppable(s, Micro(m, taken))
    ensures var t := Tick(s.a); var a' := Net(s.a, s.toA, m, taken);
      && 0 <= t < |s.a.enter| && t < |s.b.enter|
      && (a'.c.ent.rsy <==> s.a.c.ent.rsy || Crc(g, s.a.enter[t]) != Crc(g, s.b.enter[t]))
  {
    ReachesInv(g, s);
    hide Half, Own, Net, Sound, Checksum;
    Parts(g, s.a, s.b, s.toA);
    DrainFits(g, s.a, s.b, s.toA, m);
    ConsumeDetects(g, s.a, s.b, s.toA, s.toB, m, taken);
  }

  lemma ConsumeDetects<S(!new)>(g: Game<S>, x: Node<S>, y: Node<S>, qx: seq<Packet>, qy: seq<Packet>, m: Mail,
                         taken: bool)
    requires Half(g, x, y, qx) && Half(g, y, x, qy)
    requires Possible(x, qx, Micro(m, taken)) && Consumes(x) && x.c.rdn <= |x.window|
    requires Drained(x, m) <= |qx|
    requires var p := x.window[x.c.rdn - 1]; IsInput(p) && p.at - CBD == Tick(x)
    ensures var t := Tick(x);
      && 0 <= t < |x.enter| && t < |y.enter|
      && (Net(x, qx, m, taken).c.ent.rsy <==> x.c.ent.rsy || Crc(g, x.enter[t]) != Crc(g, y.enter[t]))
  {
    hide Half, Own, Net, Sound, Checksum, Genuine, Consume, Possible, Hears, Ledger, RanAgreed, SentOk, AlarmsReal;
    Parts(g, x, y, qx);
    TickCells(g, x);
    ConsumeMeans(g, x, y, qx, m, taken);
    ConsumeRange(g, x, y, qx, qy);
    var p := x.window[x.c.rdn - 1];
    CarriesChecksum(g, y, p);
    StampsCompare(x, p);
    ConsumeArms(x.c.(rdn := x.c.rdn - 1), p.f);
  }

  lemma CarriesChecksum<S(!new)>(g: Game<S>, y: Node<S>, p: Packet)
    requires |y.enter| == |y.caps| - 2 && Genuine(g, y, p) && IsInput(p)
    ensures 0 <= p.at - 2 < |y.enter| && p.f.crc == Crc(g, y.enter[p.at - 2]) && p.f.stamp == Wrap(p.at)
  {
    hide Checksum, Check;
  }

  lemma ConsumeArms(c: Cells, f: Wire.Frame)
    requires Shaped(c) && f.typ == WT_INPUT && Sound(f)
    ensures Consume(c, f).ent.rsy <==> c.ent.rsy || Arms(c, f)
  {
    hide Sound, StoreWindow;
  }

  /** REPAIRS LAND ON ONE TICK. An arming at tick t presses RESET in this console's
      capture for t + 3; a capture that no arming precedes by three is the ports' own;
      and RESET at t + 3 reaches the game on both consoles, diverged or not. */
  lemma RepairLands<S(!new)>(g: Game<S>, s: Sys<S>, t: int, on: bool, local: u8)
    requires Reaches(g, s) && t in s.a.arms
    ensures t >= 0 && |s.a.raw| == |s.a.caps|
    ensures t + 3 < |s.a.caps| ==> s.a.caps[t + 3] == Press(s.a.raw[t + 3])
    ensures forall u :: 0 <= u < |s.a.caps| && u - 3 !in s.a.arms ==> s.a.caps[u] == s.a.raw[u]
    ensures t + 3 < |s.a.ran| ==> Mix(s.a.ran[t + 3].0, s.a.ran[t + 3].1, on, local).swb % 2 == 0
    ensures t + 3 < |s.b.ran| ==> Mix(s.b.ran[t + 3].0, s.b.ran[t + 3].1, on, local).swb % 2 == 0
  {
    ReachesInv(g, s);
    hide Half, Hears, RanAgreed, SentOk, Sized, Checksum, Mix, AlarmsReal, Press, Inv;
    Parts(g, s.a, s.b, s.toA);
    if t + 3 < |s.a.caps| {
      PressIsOnlyReset(s.a.raw[t + 3]);
    }
    if t + 3 < |s.a.ran| {
      InputAgreement(g, s, t + 3);
      ResetReachesTheGame(s.a.ran[t + 3].0, s.a.ran[t + 3].1, on, local);
    }
    if t + 3 < |s.b.ran| {
      InputAgreement(g, Mirror(s), t + 3);
      ResetReachesTheGame(s.b.ran[t + 3].0, s.b.ran[t + 3].1, on, local);
    }
  }

  /** What the repair relies on: a tick with RESET down builds the new game from nothing. */
  ghost predicate ResetForgets<S(!new)>(g: Game<S>) {
    forall s, t, w: (u8, u8) :: ResetPressed(w.0) || ResetPressed(w.1) ==> Same(g, TickOf(g, s, w), TickOf(g, t, w))
  }

  lemma {:induction false} SameFrom<S(!new)>(g: Game<S>, s: Sys<S>, t: nat, u: nat)
    requires Story(g, s) && Reaches(g, s)
    requires t < u < |s.a.enter| && u < |s.b.enter|
    requires forall d :: d in s.a.dirty || d in s.b.dirty ==> d < t
    requires t < |s.a.ran| && t < |s.b.ran|
      && Same(g, TickOf(g, s.a.enter[t], s.a.ran[t]), TickOf(g, s.b.enter[t], s.b.ran[t]))
    ensures Same(g, s.a.enter[u], s.b.enter[u])
  {
    hide Inv, Midway, Checksum, Mix, Own;
    OwnShapes(g, s.a);
    OwnShapes(g, s.b);
    assert Same(g, s.a.enter[u], TickOf(g, s.a.enter[u - 1], s.a.ran[u - 1]));
    assert Same(g, s.b.enter[u], TickOf(g, s.b.enter[u - 1], s.b.ran[u - 1]));
    if u - 1 > t {
      SameFrom(g, s, t, u - 1);
      SameTick(g, s.a.enter[u - 1], s.b.enter[u - 1], s.a.ran[u - 1]);
      InputAgreement(g, s, u - 1);
    }
  }

  lemma OwnShapes<S(!new)>(g: Game<S>, n: Node<S>)
    requires Own(g, n)
    ensures |n.enter| == Tick(n) + 1
    ensures |n.ran| == Tick(n) + (if n.c.ent.ran then 1 else 0)
  {
  }

  /** REPAIRS HEAL. However far the two simulations had diverged, if a RESET tick forgets
      the state before it and nothing disturbs either console from the repair's tick on,
      they are the same in every tick after it. */
  lemma RepairHeals<S(!new)>(g: Game<S>, s: Sys<S>, t: int, u: nat)
    requires Lawful(g) && ResetForgets(g) && Reaches(g, s)
    requires t in s.a.arms && t + 3 < u < |s.a.enter| && u < |s.b.enter|
    requires forall d :: d in s.a.dirty || d in s.b.dirty ==> d < t + 3
    ensures Same(g, s.a.enter[u], s.b.enter[u])
  {
    ReachesStory(g, s);
    hide Inv, Midway, Chained, Checksum, Own, Lawful;
    OwnShapes(g, s.a);
    OwnShapes(g, s.b);
    RepairLands(g, s, t, false, 0);
    InputAgreement(g, s, t + 3);
    var w := s.a.ran[t + 3];
    ResetReachesTheGame(w.0, w.1, false, 0);
    SameFrom(g, s, t + 3, u);
  }
}
