/** Paths of the relay: runs named by where they lead, so that states can be shown to be
    reached from an empty server. */
module RelayPaths {
  import opened Bytes
  import opened Framing
  import opened Verdicts
  import opened Relay
  import opened RelayRuns

  /** Conforming traffic takes the relay from one state to another. */
  ghost predicate Leads(cfg: Config, r: State, ss: seq<Step>, r': State) {
    Run(cfg, r, ss) && PoliteRun(cfg, r, ss) && After(cfg, r, ss) == r'
  }

  lemma {:induction false} Chain(cfg: Config, r: State, xs: seq<Step>, r1: State, ys: seq<Step>, r2: State)
    requires Leads(cfg, r, xs, r1) && Leads(cfg, r1, ys, r2)
    ensures Leads(cfg, r, xs + ys, r2)
    decreases |xs|
  {
    hide Do, Possible, Polite, Sane;
    if xs == [] {
      assert xs + ys == ys;
    } else {
      assert (xs + ys)[0] == xs[0] && (xs + ys)[1..] == xs[1..] + ys;
      Chain(cfg, Do(cfg, r, xs[0]), xs[1..], r1, ys, r2);
    }
  }

  lemma OneStep(cfg: Config, r: State, s: Step)
    requires Sane(r) && Possible(r, s) && Polite(r, s)
    ensures Leads(cfg, r, [s], Do(cfg, r, s)) && Sane(Do(cfg, r, s))
  {
    hide Do, Possible, Polite;
    DoSane(cfg, r, s);
    assert [s][1..] == [];
    assert Run(cfg, Do(cfg, r, s), []) && PoliteRun(cfg, Do(cfg, r, s), []);
    assert After(cfg, Do(cfg, r, s), []) == Do(cfg, r, s);
  }

  // -------------------------------------------------------------- one frame heard

  /** A frame that has arrived whole is handled. */
  lemma Hears(cfg: Config, r: State, c: Id, m: Msg, tail: seq<u8>, luck: Luck)
    requires Sane(r) && !r.halted && c in r.live && c in r.obj && Sendable(m)
    requires r.obj[c].rx == FrameBytes(m) + tail
    requires m.ftype != T_JOIN && (m.ftype == T_HELLO ==> r.obj[c].name.None?)
    ensures var r1 := Update(r, c, r.obj[c].(rx := tail));
      Sane(r1) && Leads(cfg, r, [Next(c, luck)], Handle(cfg, r1, c, m, luck)) && Sane(Handle(cfg, r1, c, m, luck))
  {
    FrontOfFrame(m, tail);
    hide Front, FrameBytes, Handle, Leads;
    PoppedSane(r, c);
    OneStep(cfg, r, Next(c, luck));
  }

  // -------------------------------------------------------------- a good name is taken as it is

  lemma GoodNameIsClean(name: Name)
    requires GoodName(name)
    ensures Upper(Strip(name)) == name
  {
    assert !Blank(name[0]) && !Blank(name[|name| - 1]);
  }

  function Hello(name: Name): Msg
    requires |name| <= 8
  {
    Msg(T_HELLO, [PROTO, 0] + name)
  }

  /** The state in which a HELLO at the front of the buffer leaves the relay to pair. */
  function Greeted(r: State, c: Id, name: Name, tail: seq<u8>): State
    requires c in r.obj
  {
    Greet(Update(r, c, r.obj[c].(rx := tail)), c, name)
  }

  function Greet(r: State, c: Id, name: Name): State
    requires c in r.obj
  {
    Claim(Update(r, c, r.obj[c].(tv := Some(0))), c, name)
  }

  /** A HELLO under a free good name claims that name and goes on to pairing. */
  lemma HelloClaims(cfg: Config, r: State, c: Id, name: Name, luck: Luck)
    requires Sane(r) && c in r.obj && GoodName(name) && name !in r.names
    ensures Sane(Greet(r, c, name))
    ensures Handle(cfg, r, c, Hello(name), luck) == TryPair(cfg, Greet(r, c, name), c, luck.seed)
  {
    assert Hello(name).payload[2..] == name;
    GoodNameIsClean(name);
    hide Register, Strip, Upper, GoodName, Sane;
    ClaimSane(r, c, name);
    RegisterClaims(cfg, Update(r, c, r.obj[c].(tv := Some(0))), c, name, luck);
  }

  lemma ClaimSane(r: State, c: Id, name: Name)
    requires Sane(r) && c in r.obj
    ensures var r1 := Update(r, c, r.obj[c].(tv := Some(0))); Sane(r1) && Sane(Claim(r1, c, name))
  {
  }

  lemma RegisterClaims(cfg: Config, r: State, c: Id, name: Name, luck: Luck)
    requires Sane(r) && c in r.obj && name !in r.names
    ensures Sane(Claim(r, c, name)) && Register(cfg, r, c, name, luck) == TryPair(cfg, Claim(r, c, name), c, luck.seed)
  {
    hide TryPair;
  }

  // -------------------------------------------------------------- arriving

  /** A server with room whose clients all arrived at time 0, each from its own address. */
  ghost predicate Open(r: State) {
    && Sane(r) && !r.halted && |r.live| < MAX_CLIENTS
    && forall x :: x in r.live && x in r.obj ==> r.obj[x].born <= 0 && r.obj[x].ip == x
  }

  lemma {:induction false} NobodyElseFrom(r: State, ids: seq<Id>, c: Id)
    requires c !in ids && forall x :: x in ids && x in r.obj ==> r.obj[x].ip == x
    ensures SameIp(r, ids, c) == 0
    decreases |ids|
  {
    if ids != [] {
      NobodyElseFrom(r, ids[1..], c);
    }
  }

  function Arrived(r: State, c: Id): State {
    Update(r, c, NEW_CLIENT.(ip := c)).(live := r.live + [c])
  }

  lemma Arrives(cfg: Config, r: State, c: Id)
    requires Open(r) && c !in r.obj
    ensures Leads(cfg, r, [Arrive(c, c, 0)], Arrived(r, c)) && Sane(Arrived(r, c))
  {
    hide Leads;
    NobodyElseFrom(r, r.live, c);
    hide SameIp;
    OneStep(cfg, r, Arrive(c, c, 0));
  }

  /** Bytes for a client whose buffer is empty. */
  lemma Receives(cfg: Config, r: State, c: Id, data: seq<u8>)
    requires Sane(r) && !r.halted && c in r.live && c in r.obj && r.obj[c].rx == []
    ensures var r1 := Update(r, c, r.obj[c].(rx := data));
      Leads(cfg, r, [Chunk(c, data)], r1) && Sane(r1)
  {
    hide Leads;
    assert [] + data == data;
    OneStep(cfg, r, Chunk(c, data));
  }

  /** A client that has just said HELLO, before anyone looks for a partner. */
  function Joined(r: State, c: Id, name: Name): State {
    Greet(Arrived(r, c), c, name)
  }

  lemma Connects(cfg: Config, r: State, c: Id, data: seq<u8>) returns (ss: seq<Step>)
    requires Open(r) && c !in r.obj
    ensures var r1 := Arrived(r, c); var r2 := Update(r1, c, r1.obj[c].(rx := data));
      Sane(r1) && Sane(r2) && !r.halted && c in r2.live && Leads(cfg, r, ss, r2)
  {
    hide Leads, Sane;
    var r1 := Arrived(r, c);
    assert !r.halted by { OpenMeans(r); }
    Arrives(cfg, r, c);
    Receives(cfg, r1, c, data);
    ss := [Arrive(c, c, 0)] + [Chunk(c, data)];
    Chain(cfg, r, [Arrive(c, c, 0)], r1, [Chunk(c, data)], Update(r1, c, r1.obj[c].(rx := data)));
  }

  lemma SaysHello(cfg: Config, r: State, c: Id, name: Name, tail: seq<u8>)
    requires Sane(r) && !r.halted && c in r.live && c in r.obj && r.obj[c].name.None?
    requires GoodName(name) && name !in r.names && r.obj[c].rx == FrameBytes(Hello(name)) + tail
    ensures Sane(Greeted(r, c, name, tail)) && c in Greeted(r, c, name, tail).obj
    ensures Leads(cfg, r, [Next(c, Luck([], 1))], TryPair(cfg, Greeted(r, c, name, tail), c, 1))
  {
    assert Hello(name).ftype == T_HELLO && Sendable(Hello(name));
    assert c in Greeted(r, c, name, tail).obj;
    hide Leads, FrameBytes, Hello, GoodName, TryPair, Handle, Sane, Greet, Update;
    Hears(cfg, r, c, Hello(name), tail, Luck([], 1));
    HelloClaims(cfg, Update(r, c, r.obj[c].(rx := tail)), c, name, Luck([], 1));
  }

  /** The newcomer with its first bytes in the buffer, which are then taken out. */
  function Filled(r: State, c: Id, data: seq<u8>): State {
    Update(r, c, Arrived(r, c).obj[c].(rx := data)).(live := r.live + [c])
  }

  lemma FilledMeans(r: State, c: Id, data: seq<u8>)
    ensures var r2 := Filled(r, c, data);
      && r2 == Update(Arrived(r, c), c, Arrived(r, c).obj[c].(rx := data))
      && c in r2.live && c in r2.obj && r2.obj[c].name.None? && r2.obj[c].rx == data
      && r2.halted == r.halted && r2.names == r.names && Update(r2, c, r2.obj[c].(rx := [])) == Arrived(r, c)
  {
  }

  /** Connect, say HELLO, and be heard. */
  lemma Joins(cfg: Config, r: State, c: Id, name: Name) returns (ss: seq<Step>)
    requires Open(r) && c !in r.obj && GoodName(name) && name !in r.names
    ensures Sane(Joined(r, c, name)) && Leads(cfg, r, ss, TryPair(cfg, Joined(r, c, name), c, 1))
  {
    var frame := FrameBytes(Hello(name));
    hide Leads, FrameBytes, Hello, GoodName, TryPair, Sane, Open, Greet, Filled, Update, Arrived;
    assert frame + [] == frame;
    ss := Connects(cfg, r, c, frame);
    FilledMeans(r, c, frame);
    var r2 := Filled(r, c, frame);
    SaysHello(cfg, r2, c, name, []);
    Chain(cfg, r, ss, r2, [Next(c, Luck([], 1))], TryPair(cfg, Joined(r, c, name), c, 1));
    ss := ss + [Next(c, Luck([], 1))];
  }

  lemma OpenMeans(r: State)
    requires Open(r)
    ensures Sane(r) && !r.halted
  {
  }

  // -------------------------------------------------------------- who waits

  /** Only `host` waits. */
  lemma {:induction false} OnlyOneWaits(r: State, ids: seq<Id>, c: Id, host: Id)
    requires NoRepeat(ids) && forall o :: o in ids && Idle(r, o) && o != c ==> o == host
    ensures Others(r, ids, c) == if host in ids && Idle(r, host) && host != c then [host] else []
    decreases |ids|
  {
    if ids != [] {
      assert NoRepeat(ids[1..]) && ids[0] !in ids[1..] by { WithoutTail(ids, c); }
      OnlyOneWaits(r, ids[1..], c, host);
    }
  }

  /** The one that waits becomes host. */
  lemma PairsWith(cfg: Config, r: State, c: Id, host: Id, seed: nat)
    requires Sane(r) && c in r.live && host in r.live && host != c && Idle(r, host)
    requires forall o :: o in r.live && Idle(r, o) && o != c ==> o == host
    requires r.obj[c].name.Some?
    ensures TryPair(cfg, r, c, seed) == MatchUp(cfg, r, host, c, seed)
  {
    hide MatchUp;
    OnlyOneWaits(r, r.live, c, host);
  }

  lemma NobodyWaits(cfg: Config, r: State, c: Id, seed: nat)
    requires Sane(r) && c in r.obj && forall o :: o in r.live && Idle(r, o) ==> o == c
    ensures TryPair(cfg, r, c, seed) == r
  {
    OnlyOneWaits(r, r.live, c, c);
  }
}
