/** One turn of the relay's loop in which a waiting client is paired, fed and left by one
    newcomer after another, and told more than the C relay's transmit buffer holds. Every
    client conforms and sends no more than one receive takes. */
module Overflow {
  import opened Bytes
  import opened Framing
  import opened Verdicts
  import opened Relay
  import opened RelayRuns
  import opened RelayPaths
  import opened Meeting
  import opened Buffers
  import CTables

  const PULSE := Msg(T_INPUT, [])
  const BYE := Msg(T_BYE, [])

  /** How many two-byte frames one receive still holds after a HELLO and before a BYE. */
  const PULSES: nat := 2044

  function Pulses(n: nat): seq<u8> {
    if n == 0 then FrameBytes(BYE) else FrameBytes(PULSE) + Pulses(n - 1)
  }

  function Speech(): seq<u8> {
    FrameBytes(Hello(NAME_B)) + Pulses(PULSES)
  }

  lemma {:induction false} PulsesSize(n: nat)
    ensures |Pulses(n)| == 2 * n + 2
  {
    if n > 0 {
      PulsesSize(n - 1);
    }
  }

  // -------------------------------------------------------------- the visited

  /** Client 0 waits; those still to come have connected and said nothing. */
  ghost predicate Lined(r: State, todo: seq<Id>) {
    && Sane(r) && !r.halted && r.live == [0] + todo && r.names == map[NAME_A := 0]
    && 0 in r.obj && r.obj[0].name == Some(NAME_A) && r.obj[0].partner.None?
    && forall c :: c in todo ==> c in r.obj && c != 0 && Silent(r.obj[c])
  }

  predicate Silent(x: Client) {
    x.name.None? && x.partner.None? && x.rx == []
  }

  /** While client `c` visits: 0 and `c` are partners, and `c` has a name. */
  ghost predicate Visited(r: State, c: Id, todo: seq<Id>) {
    && Sane(r) && !r.halted && r.live == [0] + todo && r.names == map[NAME_A := 0, NAME_B := c]
    && 0 in r.obj && c in r.obj && c in todo && c != 0
    && r.obj[0].name == Some(NAME_A) && r.obj[c].name == Some(NAME_B)
    && r.obj[0].partner == Some(c) && r.obj[c].partner == Some(0)
    && forall d :: d in todo && d != c ==> d in r.obj && d != 0 && Silent(r.obj[d])
  }

  // -------------------------------------------------------------- the greeting

  lemma Greets(cfg: Config, r: State, c: Id, todo: seq<Id>) returns (r': State)
    requires Lined(r, todo) && c in todo
    ensures Leads(cfg, r, [Chunk(c, Speech()), Next(c, Luck([], 1))], r')
    ensures Visited(r', c, todo) && r'.obj[c].rx == Pulses(PULSES)
    ensures |r'.obj[0].tx| == |r.obj[0].tx| + 15
  {
    hide Leads, TryPair, MatchUp, Greet, FrameBytes, Hello, Sane, Speech;
    var q := Update(r, c, r.obj[c].(rx := Speech()));
    assert c in r.live;
    Receives(cfg, r, c, Speech());
    assert NAME_A[0] != NAME_B[0];
    assert Speech() == FrameBytes(Hello(NAME_B)) + Pulses(PULSES) by { SpeechIs(); }
    SaysHello(cfg, q, c, NAME_B, Pulses(PULSES));
    var w := Greeted(q, c, NAME_B, Pulses(PULSES));
    GreetedMeans(r, q, c, todo, w);
    r' := TryPair(cfg, w, c, 1);
    PairsWith(cfg, w, c, 0, 1);
    MatchUpGives(cfg, w, 0, c, 1);
    MatchUpKeeps(cfg, w, 0, c, 1);
    Chain(cfg, r, [Chunk(c, Speech())], q, [Next(c, Luck([], 1))], r');
    assert [Chunk(c, Speech())] + [Next(c, Luck([], 1))] == [Chunk(c, Speech()), Next(c, Luck([], 1))];
  }

  lemma SpeechIs()
    ensures Speech() == FrameBytes(Hello(NAME_B)) + Pulses(PULSES)
    ensures |Speech()| == 4096
  {
    PulsesSize(PULSES);
  }

  /** After the HELLO the visitor has a name, and only client 0 waits. */
  lemma GreetedMeans(r: State, q: State, c: Id, todo: seq<Id>, w: State)
    requires Lined(r, todo) && c in todo && q == Update(r, c, r.obj[c].(rx := Speech()))
    requires w == Greeted(q, c, NAME_B, Pulses(PULSES)) && Sane(w)
    ensures !w.halted && w.live == [0] + todo && w.names == map[NAME_A := 0, NAME_B := c] && 0 in w.obj && c in w.obj
    ensures w.obj[0] == r.obj[0] && w.obj[c].name == Some(NAME_B) && w.obj[c].rx == Pulses(PULSES)
    ensures 0 in w.live && c in w.live && Idle(w, 0) && forall o :: o in w.live && Idle(w, o) && o != c ==> o == 0
    ensures forall d :: d in todo && d != c ==> d in w.obj && d != 0 && Silent(w.obj[d])
  {
    hide Speech, Pulses;
    assert forall o :: o in w.live ==> o == 0 || o in todo;
  }

  // -------------------------------------------------------------- the frames

  /** One two-byte frame in, one eight-byte frame out. */
  lemma Pulsed(cfg: Config, r: State, c: Id, todo: seq<Id>, n: nat) returns (r': State)
    requires Visited(r, c, todo) && r.obj[c].rx == Pulses(n + 1)
    ensures Leads(cfg, r, [Next(c, Luck([], 1))], r')
    ensures Visited(r', c, todo) && r'.obj[c].rx == Pulses(n) && |r'.obj[0].tx| == |r.obj[0].tx| + 8
  {
    assert Sendable(PULSE) && PULSE.ftype == T_INPUT && IsRelayed(PULSE.ftype);
    assert |FrameBytes(Padded(PULSE))| == 8;
    hide Leads, FrameBytes, Padded, Sane;
    Hears(cfg, r, c, PULSE, Pulses(n), Luck([], 1));
    var q := Update(r, c, r.obj[c].(rx := Pulses(n)));
    r' := Handle(cfg, q, c, PULSE, Luck([], 1));
    assert r' == Forward(q, c, PULSE);
    assert r' == Relay.Send(q, 0, FrameBytes(Padded(PULSE)));
  }

  function Nexts(c: Id, n: nat): seq<Step> {
    if n == 0 then [] else [Next(c, Luck([], 1))] + Nexts(c, n - 1)
  }

  lemma {:induction false} AllPulsed(cfg: Config, r: State, c: Id, todo: seq<Id>, n: nat) returns (r': State)
    requires Visited(r, c, todo) && r.obj[c].rx == Pulses(n)
    ensures Leads(cfg, r, Nexts(c, n), r')
    ensures Visited(r', c, todo) && r'.obj[c].rx == FrameBytes(BYE) && |r'.obj[0].tx| == |r.obj[0].tx| + 8 * n
    decreases n
  {
    hide FrameBytes, Possible, Polite, Do, Visited;
    VisitedMeans(r, c, todo);
    if n == 0 {
      r' := r;
    } else {
      var r1 := Pulsed(cfg, r, c, todo, n - 1);
      r' := AllPulsed(cfg, r1, c, todo, n - 1);
      Chain(cfg, r, [Next(c, Luck([], 1))], r1, Nexts(c, n - 1), r');
    }
  }

  lemma VisitedMeans(r: State, c: Id, todo: seq<Id>)
    requires Visited(r, c, todo)
    ensures Sane(r) && 0 in r.obj && c in r.obj
  {
  }

  // -------------------------------------------------------------- the farewell

  lemma Leaves(cfg: Config, r: State, c: Id, todo: seq<Id>) returns (r': State)
    requires Visited(r, c, [c] + todo) && r.obj[c].rx == FrameBytes(BYE) && c !in todo
    ensures Leads(cfg, r, [Next(c, Luck([], 1))], r')
    ensures Lined(r', todo) && |r'.obj[0].tx| == |r.obj[0].tx| + 8
  {
    assert FrameBytes(BYE) == FrameBytes(BYE) + [];
    assert Sendable(BYE) && BYE.ftype == T_BYE && |PeerLeftBytes()| == 8;
    hide Leads, FrameBytes, PeerLeftBytes, Lined, Visited, Drop;
    VisitedMeans(r, c, [c] + todo);
    assert !r.halted && c in r.live by { VisitedLives(r, c, [c] + todo); }
    Hears(cfg, r, c, BYE, [], Luck([], 1));
    var q := Update(r, c, r.obj[c].(rx := []));
    r' := Drop(q, c);
    assert r' == Handle(cfg, q, c, BYE, Luck([], 1));
    DropsLined(r, c, todo);
  }

  lemma VisitedLives(r: State, c: Id, todo: seq<Id>)
    requires Visited(r, c, todo)
    ensures !r.halted && c in r.live
  {
  }

  lemma DropsLined(r: State, c: Id, todo: seq<Id>)
    requires Visited(r, c, [c] + todo) && c !in todo
    ensures var q := Update(r, c, r.obj[c].(rx := []));
      && Sane(q) && Lined(Drop(q, c), todo)
      && |Drop(q, c).obj[0].tx| == |r.obj[0].tx| + |PeerLeftBytes()|
  {
    hide PeerLeftBytes;
    var q := Update(r, c, r.obj[c].(rx := []));
    PartnerSane(r, c, q.obj[c]);
    DropKeeps(q, c);
    WithoutThis(c, todo);
    assert NAME_A[0] != NAME_B[0];
    assert Unname(q, c) == map[NAME_A := 0];
    hide Sane, Without;
  }

  lemma WithoutThis(c: Id, todo: seq<Id>)
    requires c != 0 && c !in todo
    ensures Without([0] + ([c] + todo), c) == [0] + todo
  {
    CTables.WithoutNone(todo, c);
    assert ([0] + ([c] + todo))[1..] == [c] + todo && ([c] + todo)[1..] == todo;
  }

  // -------------------------------------------------------------- one visit, and all of them

  function Visit(c: Id): seq<Step> {
    [Chunk(c, Speech()), Next(c, Luck([], 1))] + Nexts(c, PULSES) + [Next(c, Luck([], 1))]
  }

  const TOLD: nat := 15 + 8 * PULSES + 8

  lemma Visits(cfg: Config, r: State, c: Id, todo: seq<Id>) returns (r': State)
    requires Lined(r, [c] + todo) && c !in todo
    ensures Leads(cfg, r, Visit(c), r') && Lined(r', todo) && |r'.obj[0].tx| == |r.obj[0].tx| + TOLD
  {
    hide Leads, Lined, Visited, Speech, Nexts, Pulses, FrameBytes;
    LinedMeans(r, [c] + todo);
    var r1 := Greets(cfg, r, c, [c] + todo);
    VisitedMeans(r1, c, [c] + todo);
    var r2 := AllPulsed(cfg, r1, c, [c] + todo, PULSES);
    VisitedMeans(r2, c, [c] + todo);
    r' := Leaves(cfg, r2, c, todo);
    LinedMeans(r', todo);
    var a := [Chunk(c, Speech()), Next(c, Luck([], 1))];
    Chain(cfg, r, a, r1, Nexts(c, PULSES), r2);
    Chain(cfg, r, a + Nexts(c, PULSES), r2, [Next(c, Luck([], 1))], r');
  }

  lemma LinedMeans(r: State, todo: seq<Id>)
    requires Lined(r, todo)
    ensures Sane(r) && 0 in r.obj
  {
  }

  function Turn(todo: seq<Id>): seq<Step> {
    if todo == [] then [] else Visit(todo[0]) + Turn(todo[1..])
  }

  lemma {:induction false} TurnTells(cfg: Config, r: State, todo: seq<Id>) returns (r': State)
    requires Lined(r, todo) && NoRepeat(todo)
    ensures Leads(cfg, r, Turn(todo), r') && Lined(r', []) && |r'.obj[0].tx| == |r.obj[0].tx| + TOLD * |todo|
    decreases |todo|
  {
    hide Lined, Visit, Possible, Polite, Do, Sane;
    LinedMeans(r, todo);
    if todo == [] {
      r' := r;
    } else {
      assert todo == [todo[0]] + todo[1..];
      WithoutTail(todo, todo[0]);
      var r1 := Visits(cfg, r, todo[0], todo[1..]);
      LinedMeans(r1, todo[1..]);
      r' := TurnTells(cfg, r1, todo[1..]);
      Chain(cfg, r, Visit(todo[0]), r1, Turn(todo[1..]), r');
    }
  }

  // -------------------------------------------------------------- it is one turn

  /** Nothing is sent on and nobody arrives. */
  predicate OnlyReads(ss: seq<Step>) {
    forall i :: 0 <= i < |ss| ==> ss[i].Chunk? || ss[i].Next?
  }

  lemma {:induction false} ReceivedMore(xs: seq<Step>, ys: seq<Step>, c: Id)
    ensures Received(xs + ys, c) == Received(xs, c) + Received(ys, c)
    decreases |xs|
  {
    if xs == [] {
      assert xs + ys == ys;
    } else {
      assert (xs + ys)[0] == xs[0] && (xs + ys)[1..] == xs[1..] + ys;
      ReceivedMore(xs[1..], ys, c);
    }
  }

  lemma {:induction false} NextsReceive(c: Id, n: nat, d: Id)
    ensures Received(Nexts(c, n), d) == 0 && OnlyReads(Nexts(c, n))
    decreases n
  {
    if n > 0 {
      NextsReceive(c, n - 1, d);
      assert Nexts(c, n)[1..] == Nexts(c, n - 1);
    }
  }

  lemma VisitReceives(c: Id, d: Id)
    ensures Received(Visit(c), d) == (if d == c then 4096 else 0) && OnlyReads(Visit(c))
  {
    SpeechIs();
    hide Speech;
    var a, l := [Chunk(c, Speech()), Next(c, Luck([], 1))], [Next(c, Luck([], 1))];
    NextsReceive(c, PULSES, d);
    hide Nexts;
    ReceivedMore(a, Nexts(c, PULSES), d);
    ReceivedMore(a + Nexts(c, PULSES), l, d);
    assert a[1..] == l && l[1..] == [];
    assert Received(l, d) == 0;
  }

  lemma {:induction false} TurnReceives(todo: seq<Id>, d: Id)
    requires NoRepeat(todo)
    ensures Received(Turn(todo), d) == (if d in todo then 4096 else 0) && OnlyReads(Turn(todo))
    decreases |todo|
  {
    hide Visit, Received;
    if todo != [] {
      WithoutTail(todo, todo[0]);
      VisitReceives(todo[0], d);
      TurnReceives(todo[1..], d);
      ReceivedMore(Visit(todo[0]), Turn(todo[1..]), d);
    } else {
      assert Received([], d) == 0 by { NextsReceive(0, 0, d); }
    }
  }

  // -------------------------------------------------------------- before the turn

  function Upto(n: nat): seq<Id> {
    if n == 0 then [] else Upto(n - 1) + [n]
  }

  lemma {:induction false} UptoMeans(n: nat)
    ensures |Upto(n)| == n && NoRepeat(Upto(n)) && forall c :: c in Upto(n) ==> 1 <= c <= n
    decreases n
  {
    if n > 0 {
      UptoMeans(n - 1);
      var rest := Upto(n - 1);
      assert forall i :: 0 <= i < |rest| ==> rest[i] in rest;
    }
  }

  /** Client 0 waits, and `n` others have connected. */
  ghost predicate Crowd(r: State, n: nat) {
    && Lined(r, Upto(n)) && Open(r) && r.obj[0].tx == [] && r.obj[0].rx == []
    && forall c :: c in r.obj ==> c <= n
  }

  lemma FirstCrowd()
    ensures Crowd(Joined(EMPTY, 0, NAME_A), 0)
  {
    FirstMeans();
    assert [0] + Upto(0) == [0];
  }

  lemma MoreCrowd(r: State, n: nat)
    requires Crowd(r, n) && n < 62
    ensures Open(r) && n + 1 !in r.obj && Crowd(Arrived(r, n + 1), n + 1)
  {
    var q := Arrived(r, n + 1);
    UptoMeans(n);
    assert q.live == [0] + Upto(n + 1);
    JoinSane(r, n + 1, NEW_CLIENT.(ip := n + 1));
    forall c | c in Upto(n + 1) ensures c in q.obj && c != 0 && Silent(q.obj[c]) {
      assert c in Upto(n) || c == n + 1;
    }
  }

  lemma {:induction false} Gathers(cfg: Config, n: nat) returns (ss: seq<Step>, r: State)
    requires n < 63
    ensures Leads(cfg, EMPTY, ss, r) && Crowd(r, n)
    decreases n
  {
    hide Leads, Joined, Arrived, Crowd, Open;
    if n == 0 {
      ss := FirstJoins(cfg);
      FirstCrowd();
      r := Joined(EMPTY, 0, NAME_A);
    } else {
      var ss1, r1 := Gathers(cfg, n - 1);
      MoreCrowd(r1, n - 1);
      Arrives(cfg, r1, n);
      r := Arrived(r1, n);
      Chain(cfg, EMPTY, ss1, r1, [Arrive(n, n, 0)], r);
      ss := ss1 + [Arrive(n, n, 0)];
    }
  }

  /** Conforming traffic `before`, and then one turn of the loop that only reads, at most
      one receive a client, in which the buffer of `x` grows from nothing past the cap. */
  ghost predicate PassesTheCap(cfg: Config, before: seq<Step>, turn: seq<Step>, x: Id) {
    && Run(cfg, EMPTY, before) && PoliteRun(cfg, EMPTY, before)
    && var r := After(cfg, EMPTY, before);
    && Run(cfg, r, turn) && PoliteRun(cfg, r, turn) && OnlyReads(turn)
    && (forall c :: c in r.live ==> OneReceive(r, turn, c))
    && x in r.live && x in r.obj && r.obj[x].tx == []
    && x in After(cfg, r, turn).obj && |After(cfg, r, turn).obj[x].tx| > CTables.TX_CAP
  }

  /** THE CAP CAN BE PASSED. Seventeen newcomers in one turn are enough. */
  lemma TheCapCanBePassed(cfg: Config)
    ensures exists before, turn, x :: PassesTheCap(cfg, before, turn, x)
  {
    hide Turn, Run, After, PoliteRun, Received, Lined;
    var before, r := Gathers(cfg, 17);
    UptoMeans(17);
    var todo := Upto(17);
    hide Upto;
    var r' := TurnTells(cfg, r, todo);
    forall c | c in r.live ensures OneReceive(r, Turn(todo), c) {
      TurnReceives(todo, c);
      CrowdMeans(r, 17, c);
    }
    TurnReceives(todo, 0);
    LinedMeans(r', []);
    CrowdMeans(r, 17, 0);
    assert PassesTheCap(cfg, before, Turn(todo), 0);
  }

  lemma CrowdMeans(r: State, n: nat, c: Id)
    requires Crowd(r, n)
    ensures 0 in r.live && 0 in r.obj && r.obj[0].tx == []
    ensures c in r.live ==> c in r.obj && r.obj[c].rx == []
  {
    assert r.live[0] == 0;
  }
}
