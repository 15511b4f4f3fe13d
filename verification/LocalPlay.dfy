/** A console that is in no match: one player's machine with both ports, as it always was. */
module LocalPlay {
  import opened Bytes
  import opened Entry
  import opened Wire
  import opened Console
  import opened Lockstep

  /** Frames, one after another. */
  function Drawn<S(!new)>(g: Game<S>, n: Node<S>, hws: seq<Hardware>): (r: Node<S>)
    requires Shaped(n.c)
    ensures Shaped(r.c)
    decreases |hws|
  {
    if hws == [] then n else Drawn(g, Video(g, n, hws[0]), hws[1..])
  }

  /** The port a player's trigger is on. */
  function TriggerPort(hw: Hardware, player: nat): u8
    requires player < 2
  {
    if player == 0 then hw.inpt4 else hw.inpt5
  }

  /** These cells say what the ports say: both sticks in one byte, a trigger for each player,
      and the console's switches as they are. */
  predicate ShowsPorts(sh: Shadows, hw: Hardware) {
    && sh.joy / 16 == hw.swcha / 16 && sh.joy % 16 == hw.swcha % 16
    && sh.trig0 == TriggerPort(hw, 0) && sh.trig1 == TriggerPort(hw, 1)
    && sh.swb == hw.swchb
  }

  /** The stock game: its logic runs once a frame, on the ports. */
  ghost predicate Plays<S(!new)>(g: Game<S>, s: S, hws: seq<Hardware>, s': S)
    decreases |hws|
  {
    if hws == [] then s' == s
    else exists sh :: ShowsPorts(sh, hws[0]) && Plays(g, g.run(s, sh), hws[1..], s')
  }

  /** There is one set of cells that says so. */
  lemma PortsDetermine(sh: Shadows, sh': Shadows, hw: Hardware)
    requires ShowsPorts(sh, hw) && ShowsPorts(sh', hw)
    ensures sh == sh'
  {
    assert sh.joy == sh.joy / 16 * 16 + sh.joy % 16 && sh'.joy == sh'.joy / 16 * 16 + sh'.joy % 16;
  }

  lemma {:induction false} PlaysOnce<S(!new)>(g: Game<S>, s: S, hws: seq<Hardware>, s1: S, s2: S)
    requires Plays(g, s, hws, s1) && Plays(g, s, hws, s2)
    ensures s1 == s2
    decreases |hws|
  {
    if hws != [] {
      var sh :| ShowsPorts(sh, hws[0]) && Plays(g, g.run(s, sh), hws[1..], s1);
      var sh' :| ShowsPorts(sh', hws[0]) && Plays(g, g.run(s, sh'), hws[1..], s2);
      PortsDetermine(sh, sh', hws[0]);
      PlaysOnce(g, g.run(s, sh), hws[1..], s1, s2);
    }
  }

  lemma LocalFrame<S(!new)>(g: Game<S>, n: Node<S>, hw: Hardware)
    requires Shaped(n.c) && !n.c.ent.net
    ensures var n' := Video(g, n, hw);
      && ShowsPorts(n'.c.shadows, hw) && n'.c.adv && n'.sim == g.run(n.sim, n'.c.shadows)
      && n' == n.(c := n.c.(adv := true, shadows := n'.c.shadows), sim := n'.sim, off := n.off || n.c.ent.left)
  {
    hide Checksum;
  }

  /** LOCAL PLAY IS THE STOCK GAME. Over any frames of a console in no match, every frame's
      logic runs, on what the ports say in that frame, the left player's trigger first; and
      none of the netcode's cells, nor any history of a match, is touched. */
  lemma {:induction false} LocalPlayIsStock<S(!new)>(g: Game<S>, n: Node<S>, hws: seq<Hardware>)
    requires Shaped(n.c) && !n.c.ent.net
    ensures var n' := Drawn(g, n, hws);
      && Plays(g, n.sim, hws, n'.sim)
      && n' == n.(c := n.c.(adv := n'.c.adv, shadows := n'.c.shadows), sim := n'.sim, off := n'.off)
      && (n'.off == n.off || n.c.ent.left)
      && (hws != [] ==> n'.c.adv && ShowsPorts(n'.c.shadows, hws[|hws| - 1]))
    decreases |hws|
  {
    if hws != [] {
      LocalFrame(g, n, hws[0]);
      hide Video, ShowsPorts;
      LocalPlayIsStock(g, Video(g, n, hws[0]), hws[1..]);
    }
  }
}
